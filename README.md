# Jam Finder — a Dafny model of its screens and components

Jam Finder is a React Native app that connects artists with venues. A user
signs up as an artist or as a venue. They then:

- edit their profile (text, header images, an audio sample, equipment for a
  venue, available dates);
- swipe through profiles of the opposite role;
- favourite profiles;
- chat with the users they have matched with.

Every screen keeps its state in React hooks and talks to a document store
(Cloud Firestore) through awaited calls.

This project models that behaviour:

- each screen or component whose state changes becomes a `class`, with its
  hook state as fields;
- the store's collections become `map` fields of small store classes (users,
  favourites, availability, chat messages);
- each awaited store call is a parameter that says how the call ends
  (resolved, rejected, found or missing);
- the pure parts become functions, with lemmas about them: the deck filter,
  match ids, document shapes, trimming, the e-mail pattern, the retry loops,
  the carousel arithmetic and the sort.

Modules, one per source file or concern:

- `Common`: document values and JavaScript conventions shared by the screens.
  This covers truthiness, `||` defaults, `{ id, ...data }`, `trim`, the
  eight-character public id, merge writes and a generic stable sort.
- `Swipe`: the deck (`SwipeScreen`) and match formation. Match formation is
  modelled as a state machine over the `likes` and `matches` collections,
  including any interleaving of two users' right swipes.
- `MatchList`: the match list (`MatchesScreen`).
- `FavoriteToggle`: the favourite button (`SwipeCard`).
- `FavoriteList`: the favourites list (`FavoritesScreen`).
- `Chat`: the chat (`ChatScreen`).
- `Availability`: `AvailabilityCalendar`.
- `Carousel`: the header-image carousel of `ViewProfileScreen`.
- `ArtistProfile`: `ArtistProfileScreen`.
- `VenueProfile`: `VenueProfileScreen`.
- `Signup`: `SignupScreen`.
- `Retry`: the shared specification of the bounded retry loops.
- `AudioUpload`: `AudioUploader`.
- `ImageUpload`: `ImageUploader`.

Where the written description of the app and the code differ, the model
follows the code:

- Matches come from the `likes` collection that right swipes write. They do
  not come from the `favorites` collection.
- The deck does not leave out profiles that are already matched.
- The deck's "not myself" test compares each entry's `id` with its own `uid`
  field, not with the viewer's id. The viewer drops out only because their
  role is the wrong one.
- The match write is a plain `set`, so a second write overwrites the first.
  It is not create-if-absent. `matchedAt` is the client's ISO-8601 time, not
  a server timestamp.
- Chat messages carry no kind field (only date requests have `type`). No
  check is made that the sender belongs to the match.
- In the match list, one failed profile read abandons the whole load. The
  sort as written throws on two or more matches (see Findings).
- Unfavouriting writes `null` under the profile's key. The key stays in the
  document, so the favourites list still shows the profile.
- A rejected favourite write is not caught, and the button does not change.
- The retry loops are written inline in `AudioUploader`, and once in
  `uploadWithRetry` of `ImageUploader`. `pickImage` does not call
  `uploadWithRetry`: it uploads once.

## Model

| member | source | states |
|---|---|---|
| Common.Attach | src/screens/FavoritesScreen.js:23 | `{ id, ...data }` has the document's keys plus `id`; every data field is kept, and `id` is the document id unless the data has its own `id`, which wins |
| Common.TextOr | src/screens/ArtistProfileScreen.js:65-70 | `data.x \|\| ''` is non-empty exactly when the field holds non-empty text |
| Common.ListOr | src/screens/ArtistProfileScreen.js:69 | `data.x \|\| []` is the stored list when there is one, otherwise empty |
| Common.Trim | src/screens/ChatScreen.js:46 | trimming gives the empty string exactly when the text is all white space; otherwise the result starts and ends with a non-space |
| Common.TrimRemovesOnlySpaces | src/screens/ChatScreen.js:46 | the trimmed text is a contiguous slice of the input, with only white space cut off on either side |
| Common.PublicId | src/screens/ArtistProfileScreen.js:136 | the public id is the first eight characters of the user id, or all of it when shorter |
| Common.MergeInto | src/screens/ArtistProfileScreen.js:154 | a merge write keeps every existing field the patch does not name and takes the patch's value for every field it does |
| Common.SortByKey | src/screens/MatchesScreen.js:51 | sorting is a permutation of its input |
| Common.SortByKeyAscending | src/screens/MatchesScreen.js:51 | the sorted sequence is ordered by the comparator's key |
| Swipe.OppositeRole | src/screens/SwipeScreen.js:47 | an artist is shown venues; every other role is shown artists, never its own role |
| Swipe.Deck | src/screens/SwipeScreen.js:52-67 | every card dealt has the opposite role, and the deck is no longer than the user collection |
| Swipe.DeckMembership | src/screens/SwipeScreen.js:52-67 | a card is in the deck exactly when some stored user with the opposite role and an `id` different from its `uid` field yields it |
| Swipe.DeckPreservesOrder | src/screens/SwipeScreen.js:52-67 | the deck keeps the collection's order: dealing from two halves concatenates their decks |
| Swipe.ViewerNeverDealt | src/screens/SwipeScreen.js:47-64 | the viewer's own document never appears in their deck, because its role is not the opposite one |
| Swipe.SwipeScreen.OnAuthStateChanged | src/screens/SwipeScreen.js:16-77 | with a user and a found document, the role is read and the deck is dealt; a missing document returns early with loading still on; a rejected read alerts; loading ends otherwise |
| Swipe.CodeUnitLessIrreflexive | src/screens/SwipeScreen.js:97 | the default `sort` order on ids is irreflexive |
| Swipe.CodeUnitLessTotal | src/screens/SwipeScreen.js:97 | of two different ids exactly one sorts first |
| Swipe.MatchIdSymmetric | src/screens/SwipeScreen.js:97 | both users of a pair compute the same match id |
| Swipe.FirstUnderscore | src/screens/SwipeScreen.js:87 | in `a_b` with an `a` free of underscores, the first underscore is the separator |
| Swipe.JoinInjective | src/screens/SwipeScreen.js:87 | joining with `_` is injective when the left part has no underscore |
| Swipe.LikeKeyInjective | src/screens/SwipeScreen.js:87 | like ids identify the pair (swiper, swiped) exactly, for ids without underscores |
| Swipe.MatchIdInjective | src/screens/SwipeScreen.js:97 | equal match ids mean the same unordered pair, for ids without underscores |
| Swipe.LikeKeysCollideWithUnderscores | src/screens/SwipeScreen.js:87 | with an underscore inside an id, two different likes share one document id |
| Swipe.Step | src/screens/SwipeScreen.js:82-105 | each awaited call moves a swipe forward one phase, from like, to reverse check, to match write; a rejected call ends it with the store unchanged |
| Swipe.SwipeRightContract | src/screens/SwipeScreen.js:82-105 | a right swipe records the like unless that write is rejected, which stops it; it writes the match, under the sorted id with `[swiper, swiped]`, exactly when all three awaits resolve and the reverse like is stored once the swiper's own like is; otherwise the matches are unchanged |
| Swipe.Interleave | src/screens/SwipeScreen.js:82-105 | running swipes interleaved keeps each swipe's swiper and swiped user |
| Swipe.StepKeepsCanonical | src/screens/SwipeScreen.js:87-101 | every like and match record stays stored under the id computed from its own users |
| Swipe.InterleaveKeepsCanonical | src/screens/SwipeScreen.js:87-101 | any interleaving of swipes keeps every record under its own id |
| Swipe.OneRecordPerPair | src/screens/SwipeScreen.js:97-98 | in such a store, two match records for the same pair of users are one record |
| Swipe.InterleaveOnlyAdds | src/screens/SwipeScreen.js:82-105 | swipes never remove a like or a match |
| Swipe.StepKeepsPairInvariant | src/screens/SwipeScreen.js:82-105 | one successful step of either of two opposite swipes keeps the pair invariant: a swipe past its like has its like stored, and when both are done the match is stored |
| Swipe.InterleaveKeepsPairInvariant | src/screens/SwipeScreen.js:82-105 | the pair invariant holds through any schedule of successful steps |
| Swipe.MutualSwipesAlwaysMatch | src/screens/SwipeScreen.js:82-105 | when two users swipe right on each other and every call resolves, the match exists at the end, whatever the interleaving |
| Swipe.MatchStore.SwipeRight | src/screens/SwipeScreen.js:82-105 | the store and the outcome after one right swipe are those of the swipe's specification |
| MatchList.ViewerRecords | src/screens/MatchesScreen.js:28-31 | the query returns exactly the match records whose users include the viewer |
| MatchList.Counterpart | src/screens/MatchesScreen.js:36 | `find` gives the first user that is not the viewer, and nothing when every user is the viewer |
| MatchList.Entries | src/screens/MatchesScreen.js:33-48 | a load that succeeds lists at most one entry per record |
| MatchList.EntriesMembership | src/screens/MatchesScreen.js:33-48 | an entry is listed exactly when some record has a counterpart whose profile exists, with the record's id, that profile and its `matchedAt` |
| MatchList.EntriesStep | src/screens/MatchesScreen.js:33-48 | a successful load also succeeds without its last record, and lists what that shorter load lists plus what the last record yields |
| MatchList.EntriesDistinct | src/screens/MatchesScreen.js:33-48 | records with distinct ids give entries with distinct ids |
| MatchList.CollectEntries | src/screens/MatchesScreen.js:33-48 | the loop builds exactly the entry list, or fails as the list fails |
| MatchList.EntriesAbortKeeps | src/screens/MatchesScreen.js:33-54 | once a profile read is rejected, later records change nothing: the whole load fails |
| MatchList.SortByRecencyOrders | src/screens/MatchesScreen.js:51 | the list is sorted most recent first and is a permutation of the entries |
| MatchList.SortAsWritten | src/screens/MatchesScreen.js:51 | the comparator as written throws whenever two or more entries are compared |
| MatchList.TwoMatchesListedAsNone | src/screens/MatchesScreen.js:51-54 | two entries make the sort as written fail, though the intended sort orders them most recent first |
| MatchList.CountNoun | src/screens/MatchesScreen.js:95 | the header says "match" for exactly one entry and "matches" otherwise |
| MatchList.LoadedFromViewerRecords | src/screens/MatchesScreen.js:23-58 | every listed entry comes from a record that includes the viewer, and the list is most recent first |
| MatchList.SortShortList | src/screens/MatchesScreen.js:51 | sorting zero or one entry leaves the list as it is |
| MatchList.AsWrittenListsAtMostOne | src/screens/MatchesScreen.js:23-58 | with the sort as written, the screen lists something exactly when the intended load gives at most one entry, and then the same list |
| MatchList.MatchesScreen.LoadMatches | src/screens/MatchesScreen.js:23-58 | loading always ends; the list is replaced only by a load that succeeds, and otherwise stays as it was |
| FavoriteToggle.Keys | src/screens/FavoritesScreen.js:16-17 | the keys of the favourites document, in insertion order |
| FavoriteToggle.Lookup | src/components/SwipeCard.js:14 | a field is found exactly when its key is in the document, with its stored value |
| FavoriteToggle.Put | src/components/SwipeCard.js:27-30 | writing a field keeps the key order and appends a new key at the end |
| FavoriteToggle.PutLookup | src/components/SwipeCard.js:27-30 | a written field reads back as written, and every other field is unchanged |
| FavoriteToggle.PutLookupAt | src/components/SwipeCard.js:27-30 | reading any field after a write gives the written value at the written key and the old value elsewhere |
| FavoriteToggle.PutKeepsKeysDistinct | src/components/SwipeCard.js:27-30 | writing a field never duplicates a key |
| FavoriteToggle.MergeField | src/components/SwipeCard.js:30 | a merge `set` creates the owner's document if needed and leaves other owners alone |
| FavoriteToggle.UpdateField | src/components/SwipeCard.js:27 | `update` fails on a missing document and otherwise keeps the set of documents |
| FavoriteToggle.ToggleKeepsConsistent | src/components/SwipeCard.js:22-33 | if the button matched the stored field before a press, it matches it after, whether the write resolves or is rejected |
| FavoriteToggle.ToggleTwiceRestoresFlag | src/components/SwipeCard.js:22-33 | two successful presses restore the button state |
| FavoriteToggle.UnfavoriteKeepsKey | src/components/SwipeCard.js:26-28 | unfavouriting stores `null` and keeps the key in the document |
| FavoriteToggle.FavoriteMergesTrue | src/components/SwipeCard.js:29-31 | favouriting stores `true` under the profile's key, creating the document if needed |
| FavoriteToggle.ButtonTitle | src/components/SwipeCard.js:67 | the button says "Unfavorite" exactly when favourited |
| FavoriteToggle.SwipeCard.CheckFavorite | src/components/SwipeCard.js:9-17 | the button ends up on exactly when it was on already or a signed-in user's document holds a truthy field for the profile; the check never turns it off |
| FavoriteToggle.SwipeCard.ToggleFavorite | src/components/SwipeCard.js:22-33 | the store and the button after a press are those of the toggle's specification |
| FavoriteList.ExistingIds | src/screens/FavoritesScreen.js:19-25 | the ids listed are exactly the favourited ids whose profile exists |
| FavoriteList.Listed | src/screens/FavoritesScreen.js:13-28 | the list fails exactly when some profile read is rejected |
| FavoriteList.ListedIsExistingProfiles | src/screens/FavoritesScreen.js:19-25 | the list holds one entry per existing profile, in key order, each tagged with its id |
| FavoriteList.ExistingIdsConcat | src/screens/FavoritesScreen.js:19-25 | the loop's result for a sequence of keys is the concatenation of the results for its parts |
| FavoriteList.ExistingIdsDistinct | src/screens/FavoritesScreen.js:19-25 | distinct keys give distinct listed profiles |
| FavoriteList.CollectFavorites | src/screens/FavoritesScreen.js:19-25 | the loop builds exactly the specified list |
| FavoriteList.UnfavoritedStillListed | src/screens/FavoritesScreen.js:16-25 | an unfavourited profile that still exists is still listed, because its key stays |
| FavoriteList.FavoritesScreen.FetchFavorites | src/screens/FavoritesScreen.js:13-28 | without a user the fetch throws before any read and the list stays; a missing document gives an empty list; a found one gives the specified list; a rejected read leaves the list as it was |
| Chat.Resolve | src/screens/ChatScreen.js:56 | the store replaces each server-timestamp placeholder by its own time and keeps every other field |
| Chat.StampedDocs | src/screens/ChatScreen.js:33 | only messages with a timestamp take part in the ordered query |
| Chat.Project | src/screens/ChatScreen.js:35-38 | each message is shown as `{ id, ...data }`, one entry per document |
| Chat.VisibleList | src/screens/ChatScreen.js:28-40 | the list shown is chronological and holds exactly the stamped messages, each once |
| Chat.ComposeMessage | src/screens/ChatScreen.js:45-57 | nothing is sent exactly when the text is blank; otherwise the trimmed text, the sender and a server timestamp |
| Chat.ComposeDateRequest | src/screens/ChatScreen.js:65-77 | a date request has type `date_request`, the formatted date, the sender and a server timestamp |
| Chat.Render | src/screens/ChatScreen.js:92-103 | an entry is drawn as a date card exactly when its type is `date_request`; a bubble is mine exactly when I sent it |
| Chat.SentMessageRendersAsBubble | src/screens/ChatScreen.js:45-103 | a sent message comes back as a bubble with the trimmed text, marked as mine exactly for its sender |
| Chat.DateRequestRendersAsCard | src/screens/ChatScreen.js:65-103 | a sent date request comes back as a date card with the formatted date |
| Chat.MessageStore.Add | src/screens/ChatScreen.js:53-57 | `add` appends one document, with its timestamp resolved, to that match's messages only |
| Chat.ChatScreen.OnSnapshot | src/screens/ChatScreen.js:28-40 | the screen's list becomes the ordered projection of the match's messages |
| Chat.ChatScreen.SendMessage | src/screens/ChatScreen.js:45-63 | a blank text sends nothing; otherwise the composed message is added and the box cleared, and a rejected write keeps the text |
| Chat.ChatScreen.SendDateRequest | src/screens/ChatScreen.js:65-82 | a date request is added and the modal closed; a rejected write changes nothing |
| Availability.Dedup | src/components/AvailabilityCalendar.js:18-22 | the loaded dates hold each stored date once, and no others |
| Availability.DedupOfDistinct | src/components/AvailabilityCalendar.js:18-22 | dates already distinct load in their order |
| Availability.FormatDates | src/components/AvailabilityCalendar.js:20-22 | the `forEach` loop builds exactly the de-duplicated dates |
| Availability.Remove | src/components/AvailabilityCalendar.js:34-35 | the filter drops exactly the given date and keeps distinctness |
| Availability.RemoveAppended | src/components/AvailabilityCalendar.js:30-41 | removing a date just appended gives the selection back |
| Availability.ToggleMembership | src/components/AvailabilityCalendar.js:30-41 | a toggle flips that date's membership, changes no other date and keeps the selection distinct |
| Availability.ToggleTwice | src/components/AvailabilityCalendar.js:30-41 | two toggles of one date restore the selection's contents, and the selection itself when the date was not selected |
| Availability.Saved | src/components/AvailabilityCalendar.js:43-47 | the saved document holds only `dates` |
| Availability.SaveLoadRoundTrip | src/components/AvailabilityCalendar.js:14-47 | saving a selection and loading it gives it back |
| Availability.AvailabilityCalendar.LoadAvailability | src/components/AvailabilityCalendar.js:14-25 | loading sets the stored dates, each once; a missing document, a rejected read or a `dates` value that is not a list leaves the selection as it was |
| Availability.AvailabilityCalendar.ToggleDate | src/components/AvailabilityCalendar.js:30-41 | a tap toggles the date in the selection |
| Availability.AvailabilityCalendar.SaveAvailability | src/components/AvailabilityCalendar.js:43-47 | saving overwrites the user's document with the selection, and confirms exactly when the write resolves |
| Carousel.StepsStayInRange | src/screens/ViewProfileScreen.js:178-192 | next and previous stay among the images and wrap around |
| Carousel.StepsAreInverse | src/screens/ViewProfileScreen.js:178-192 | previous undoes next, and next undoes previous |
| Carousel.AdvanceWithinCycle | src/screens/ViewProfileScreen.js:178-184 | k presses of next move k images forward, wrapping at most once |
| Carousel.FullCycle | src/screens/ViewProfileScreen.js:178-184 | as many presses as images come back to the start |
| Carousel.ShowsNavButtons | src/screens/ViewProfileScreen.js:204 | the arrows show exactly when there is more than one header image |
| Carousel.RoleLabel | src/screens/ViewProfileScreen.js:232 | the label is "Artist" exactly for the artist role and "Venue" otherwise |
| Carousel.ViewProfileScreen.HandleNextImage | src/screens/ViewProfileScreen.js:178-184 | next moves to the following image, wrapping to the first, and keeps the index among the images |
| Carousel.ViewProfileScreen.HandlePrevImage | src/screens/ViewProfileScreen.js:186-192 | previous moves to the preceding image, wrapping to the last, and keeps the index among the images |
| ArtistProfile.AddHeaderImage | src/screens/ArtistProfileScreen.js:102-108 | an image is added exactly when fewer than five are held, at the end; otherwise the "Max 5" alert |
| ArtistProfile.AddAllKeepsCap | src/screens/ArtistProfileScreen.js:102-108 | from at most five, additions keep the first images that fit, and the list never exceeds five |
| ArtistProfile.InitialRecord | src/screens/ArtistProfileScreen.js:83-88 | a first load writes only the public id, the artist role and the creation time |
| ArtistProfile.MergedField | src/screens/ArtistProfileScreen.js:154 | each field of the saved record reads back after the merge |
| ArtistProfile.RecordText | src/screens/ArtistProfileScreen.js:138-140 | the record holds the form's name, bio and genre; the saved record passes them trimmed |
| ArtistProfile.RecordMedia | src/screens/ArtistProfileScreen.js:141-143 | the record holds the form's image, header images and audio URL as they are |
| ArtistProfile.RecordIdentity | src/screens/ArtistProfileScreen.js:144-146 | the record names the artist role, the public id and a server time |
| ArtistProfile.SaveLoadRoundTrip | src/screens/ArtistProfileScreen.js:65-70 | saving and loading again gives the form back, with trimmed text, whatever the document held; the document then names the role and the public id |
| ArtistProfile.ErrorMessage | src/screens/ArtistProfileScreen.js:174-181 | the alert is the permission text exactly for `permission-denied`, the network text for `unavailable`, then the timeout text for the timeout, and the generic text otherwise |
| ArtistProfile.ShareUrlNamesPublicId | src/screens/ArtistProfileScreen.js:187-189 | the share link ends in the public id, and two links are equal exactly when the public ids are |
| ArtistProfile.ArtistProfileScreen.LoadProfile | src/screens/ArtistProfileScreen.js:43-97 | without a user nothing happens; a found document fills the form; a missing one gets the initial record; a rejected await alerts; loading ends |
| ArtistProfile.ArtistProfileScreen.AddImage | src/screens/ArtistProfileScreen.js:102-108 | the header images change as the cap allows, and the alert appears exactly when the cap refuses |
| ArtistProfile.ArtistProfileScreen.SaveProfile | src/screens/ArtistProfileScreen.js:110-136 | a save in progress ignores the press; a blank name, then a missing user, is refused before the flag is set; otherwise saving starts with the record |
| ArtistProfile.ArtistProfileScreen.FinishSave | src/screens/ArtistProfileScreen.js:154-185 | the record is merged when the write lands, even after the timeout; the flag is always reset; the alert matches the outcome |
| VenueProfile.DefaultProfileData | src/screens/VenueProfileScreen.js:35-48 | the editor starts with empty name, address and capacity and all equipment off |
| VenueProfile.SpreadOf | src/screens/VenueProfileScreen.js:256-262 | `...prev.equipment` never throws: an object gives its fields, a missing or `null` equipment gives none |
| VenueProfile.ToggleFlag | src/screens/VenueProfileScreen.js:256-308 | reading `prev.equipment.<flag>` makes a press throw exactly when the equipment is missing or `null`; otherwise the equipment stays an object |
| VenueProfile.ToggleFlipsOnlyItsFlag | src/screens/VenueProfileScreen.js:256-308 | a press negates its own flag's truthiness and changes no other field or flag |
| VenueProfile.ToggleTwiceRestores | src/screens/VenueProfileScreen.js:256-308 | two presses restore the flag's truthiness, and the whole record when the flag held a boolean |
| VenueProfile.EditDetailsOnlyDetails | src/screens/VenueProfileScreen.js:326-332 | typing the details never throws and changes only the details; a missing or `null` equipment becomes an object holding just the details |
| VenueProfile.EditField | src/screens/VenueProfileScreen.js:211-244 | typing in a text input sets that field and no other |
| VenueProfile.RequiredFields | src/screens/VenueProfileScreen.js:109-112 | the untouched form is refused; typed name, address and capacity pass exactly when none is empty |
| VenueProfile.SavePatch | src/screens/VenueProfileScreen.js:121-125 | the update sends the whole record plus `updatedAt` |
| VenueProfile.InitialRecord | src/screens/VenueProfileScreen.js:89-94 | a first load writes only the public id, the venue role and the creation time |
| VenueProfile.VenueProfileScreen.LoadProfile | src/screens/VenueProfileScreen.js:60-103 | without a uid nothing changes; a found document fills the fields and becomes the whole record; a missing one gets the initial record and a rejected await alerts, both leaving the form as it was; loading ends |
| VenueProfile.VenueProfileScreen.PressFlag | src/screens/VenueProfileScreen.js:256-308 | a press toggles the flag, or throws and changes nothing |
| VenueProfile.VenueProfileScreen.TypeDetails | src/screens/VenueProfileScreen.js:326-332 | typing sets the record to the edited details and changes no other state |
| VenueProfile.VenueProfileScreen.HandleSaveProfile | src/screens/VenueProfileScreen.js:108-132 | missing fields, then a missing user, are refused; the update succeeds exactly when it resolves on an existing document |
| Signup.AtIndex | src/screens/Auth/SignupScreen.js:24-27 | the position of the first `@` |
| Signup.ValidEmailMatchesPattern | src/screens/Auth/SignupScreen.js:24-27 | `validateEmail` accepts exactly the strings `^[^\s@]+@[^\s@]+\.[^\s@]+$` matches |
| Signup.ValidEmailMatches | src/screens/Auth/SignupScreen.js:24-27 | every address `validateEmail` accepts matches the pattern |
| Signup.MatchedEmailValid | src/screens/Auth/SignupScreen.js:24-27 | every string the pattern matches is accepted by `validateEmail` |
| Signup.ValidEmailIsTrimmed | src/screens/Auth/SignupScreen.js:31-40 | a valid address is its own trim and is not blank |
| Signup.PaddedEmailInvalid | src/screens/Auth/SignupScreen.js:24-27 | white space before or after an address makes it invalid |
| Signup.SignupCheck | src/screens/Auth/SignupScreen.js:31-44 | the blank-email, invalid-email and short-password alerts each appear exactly when the earlier checks pass and theirs fails; no alert exactly for a valid address and six or more characters |
| Signup.InitialDocIdentity | src/screens/Auth/SignupScreen.js:53-65 | the new document carries the role, the public id and the e-mail |
| Signup.VenueFieldsOnlyForVenues | src/screens/Auth/SignupScreen.js:66-76 | the venue fields are present exactly for a venue |
| Signup.NewDocumentLoadsEmptyForm | src/screens/Auth/SignupScreen.js:53-77 | a new document loads as an empty artist form |
| Signup.NewDocumentText | src/screens/Auth/SignupScreen.js:53-65 | a new document's name, bio and genre are empty text |
| Signup.NewDocumentMedia | src/screens/Auth/SignupScreen.js:53-65 | a new document has an empty image and audio URL and no header images |
| Signup.NewVenueDocumentEditable | src/screens/Auth/SignupScreen.js:66-76 | a new venue's equipment can be toggled, but the venue save still asks for the required fields |
| Signup.SignupScreen.HandleSignup | src/screens/Auth/SignupScreen.js:29-89 | a failed check alerts and writes nothing; a rejected creation or write alerts its message; otherwise the new document is written and the screen navigates |
| Retry.FirstSuccess | src/components/ImageUploader.js:17 | the first attempt that succeeds, with all earlier ones failed |
| Retry.FirstSuccessStable | src/components/ImageUploader.js:17-54 | allowing more attempts does not change an earlier first success |
| Retry.Waits | src/components/ImageUploader.js:58-61 | the k-th wait is k seconds |
| Retry.Retried | src/components/ImageUploader.js:15-65 | at most the bound of attempts; success exactly when an attempt within the bound succeeds, with that attempt's value; otherwise the last error; waits only between attempts |
| Retry.RetriedMonotone | src/components/ImageUploader.js:15-65 | a success within a smaller bound is the same under a larger one |
| Retry.RetryWhile | src/components/AudioUploader.js:51-68 | the `while` retry loop ends as the retry specification |
| Retry.RetryFor | src/components/ImageUploader.js:17-64 | the `for` retry loop ends as the retry specification |
| AudioUpload.SizeLimitInclusive | src/components/AudioUploader.js:34-37 | a file of exactly 10 MB is accepted and one byte more is refused |
| AudioUpload.Sanitize | src/components/AudioUploader.js:45 | each character outside `[a-zA-Z0-9.-]` becomes `_`, every other is kept, and the length is unchanged |
| AudioUpload.SanitizeIdempotent | src/components/AudioUploader.js:45 | a sanitised name holds only kept characters and underscores, and sanitising it again changes nothing |
| AudioUpload.DecimalString | src/components/AudioUploader.js:44-46 | the timestamp is written as one or more decimal digits |
| AudioUpload.AudioPathShape | src/components/AudioUploader.js:44-46 | the path lies in the user's folder and ends in the timestamp digits, an underscore and the sanitised name |
| AudioUpload.PickOutcome | src/components/AudioUploader.js:16-178 | no user alerts sign-in; no pick does nothing; too large alerts the limit; delivery needs the fetch, the upload and a non-empty URL; any other failure alerts the upload error |
| AudioUpload.DeliveredExactly | src/components/AudioUploader.js:51-121 | delivery happens exactly when a fetch within three attempts succeeds, the upload resolves and the URL request gives a non-empty URL within three attempts |
| AudioUpload.AudioUploader.PickAudio | src/components/AudioUploader.js:16-178 | a press while disabled or uploading is ignored; a rejected picker alerts its message and resets the flag and progress; otherwise the outcome is the specified one, the flag is reset, the progress is reset only once a file is accepted, and the URL is stored on delivery |
| ImageUpload.UploadWithRetry | src/components/ImageUploader.js:15-65 | `uploadWithRetry` ends as the retry specification: at most the bound of attempts, the success value from the succeeding attempt, and `undefined` thrown when no attempt is allowed |
| ImageUpload.UploadWithRetryBound | src/components/ImageUploader.js:15-65 | with the default bound, success needs one of the first three attempts, and a success at the third follows waits of one and two seconds |
| ImageUpload.ImagePathInjective | src/components/ImageUploader.js:98-99 | two uploads by one user share a path exactly when their unique ids are equal |
| ImageUpload.ImageUploader.PickImage | src/components/ImageUploader.js:67-152 | a press while disabled or uploading is ignored; no user alerts sign-in; a rejected picker alerts its message; a cancelled pick does nothing; the first rejected step alerts its message; otherwise the URL is delivered and stored; the flag is reset |

## Left out

- Timers and `Promise.race`: the ten-second save timeout (ArtistProfileScreen) becomes an outcome of the write (`TimedOut`, with or without the write landing later). The isSaving interleaving is modelled by splitting `saveProfile` into `SaveProfile` and `FinishSave`.
- Upload progress fractions and the upload task's progress events are not modelled; only the reset of `uploadProgress` to zero is.
- Audio playback after an upload (AudioUploader.js:149-160) is not modelled. A playback failure after delivery alerts the upload error in the source; here delivery stands.
- AudioUpload.PickOutcome: the `onUploaded` callback and its fallback `update` of the user document (AudioUploader.js:125-145) are calls into code the model cannot see; the outcome stops at the URL handed over.
- The document and image pickers (their result, or their rejection), `fetch` of the picked file, `Date.now()`, `Math.random()` and `toDateString()` are inputs of the model: the picked file, the timestamp, the unique id and the formatted date.
- Strings are sequences of characters, not UTF-16 code units: `Sanitize` and the password length count characters.
- Ids are compared character by character, which is JavaScript's default `sort` order for the ids the store generates.
- The store's order for documents with equal timestamps, and the key order of integer-like keys in `Object.keys`, are not modelled: favourite keys keep insertion order.
- Swipe.SwipeScreen.OnAuthStateChanged: a user without a document leaves `isLoading` on, as the source does; its `toUpperCase` on a missing role is a rejected step, alerted like a failed read.
- Common.TextOr and Common.ListOr treat a stored value of another type (a number, say) as absent, giving `''` and `[]`. The source would show it as it is.
- VenueProfile.SpreadOf: a string or list `equipment` spreads as an empty object. The source would spread its characters or items under index keys.
- AudioUpload.PickOutcome: the picked file's size is a number. A picker that reports no size passes the check in the source.
- MatchList.MatchesScreen.LoadMatches: models the intended sort by recency. As written, the sort throws for two entries or more and the list is kept; `MatchList.LoadedAsWritten` and `MatchList.AsWrittenListsAtMostOne` state that behaviour (see "## Findings").
- FavoriteList.FavoritesScreen.FetchFavorites: models the fetch as intended, reading the current user of `auth()` and the store through its own reads. As written, FavoritesScreen.js:14 reads `currentUser` from the auth module function itself, and line 15 passes the native store module to the web SDK's `doc`. Read literally, the fetch rejects before any read and the list stays empty. These library calls are not part of this model, so this is not claimed as a finding.
- Retry.RetryWhile requires at least one attempt; the source's bound is the constant 3.
- Rendering is not modelled. The checkboxes read `profileData.equipment.<flag>` when the screen renders, so a venue document without `equipment` crashes the source's screen before any handler runs. The handlers are modelled as they would run: the checkbox presses throw and the details box sets `{details}`.
- Sign-in (LoginScreen), role choice, navigation, the public profile page and all layout and styling are not part of this model.
- Signup.SignupScreen.HandleSignup: account creation is one input (`created`); the authentication service itself is not modelled.

## Findings

| source | as written | input that shows it | evidently intended | confidence | as-written member | corrected member |
|---|---|---|---|---|---|---|
| src/screens/MatchesScreen.js:51 | the comparator calls `matchedAt?.toDate()`, but the swipe screen stores `matchedAt` as ISO-8601 text (SwipeScreen.js:100), which has no `toDate`; the sort throws, the error is caught, and the list is never set | a viewer with two matches: the sort throws and the screen shows no matches | matches sorted most recent first | not executed | MatchList.TwoMatchesListedAsNone | MatchList.SortByRecencyOrders |
