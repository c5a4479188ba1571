/** The swipe screen: the candidate deck, and match formation on a right
    swipe. A right swipe records a like under `swiper_swiped` in the `likes`
    collection, reads the reverse like `swiped_swiper`, and if that exists
    writes a match under the canonical id (the two user ids sorted and joined
    with `_`) in the `matches` collection. Each awaited store call is one
    step that resolves or is rejected; steps of several swipes may
    interleave. */
module Swipe {
  import opened Common

  // ---------------------------------------------------------------------
  // Candidate deck
  // ---------------------------------------------------------------------

  /** A document of the `users` collection as a query returns it. */
  datatype UserDoc = UserDoc(id: string, data: Fields)

  /** The role whose profiles a viewer is shown. */
  function OppositeRole(role: string): (r: string)
    ensures r != role
    ensures r == "venue" <==> role == "artist"
  {
    if role == "artist" then "venue" else "artist"
  }

  /** The deck's filter on an entry `{ id, ...data }`: its `id` differs from
      its own `uid` field, and its role is the wanted one. */
  predicate Eligible(entry: Fields, wanted: string)
  {
    Get(entry, "id") != Get(entry, "uid") && Get(entry, "role") == Some(Str(wanted))
  }

  /** The elements of `xs` mapped by `f`, kept when they pass `keep`, in
      order: the shape of `docs.map(...).filter(...)`. */
  function MapFilter<T, U>(xs: seq<T>, f: T -> U, keep: U -> bool): (r: seq<U>)
    ensures |r| <= |xs|
    ensures forall y :: y in r ==> keep(y)
  {
    if xs == [] then []
    else
      var rest := MapFilter(xs[..|xs| - 1], f, keep);
      var y := f(xs[|xs| - 1]);
      if keep(y) then rest + [y] else rest
  }

  /** A value is kept exactly when it is the image of some element and
      passes the filter. */
  lemma {:induction false} MapFilterMembership<T, U>(xs: seq<T>, f: T -> U, keep: U -> bool, y: U)
    ensures y in MapFilter(xs, f, keep) <==> exists i :: 0 <= i < |xs| && y == f(xs[i]) && keep(y)
  {
    if xs != [] {
      var init, last := xs[..|xs| - 1], |xs| - 1;
      MapFilterMembership(init, f, keep, y);
      if y in MapFilter(xs, f, keep) && y !in MapFilter(init, f, keep) {
        assert y == f(xs[last]) && keep(y);
      }
      if exists i :: 0 <= i < |xs| && y == f(xs[i]) && keep(y) {
        var i :| 0 <= i < |xs| && y == f(xs[i]) && keep(y);
        if i < last {
          assert y == f(init[i]);
        }
      }
    }
  }

  /** Mapping and filtering a concatenation concatenates the results. */
  lemma {:induction false} MapFilterConcat<T, U>(front: seq<T>, back: seq<T>, f: T -> U, keep: U -> bool)
    ensures MapFilter(front + back, f, keep) == MapFilter(front, f, keep) + MapFilter(back, f, keep)
    decreases |back|
  {
    if back != [] {
      var init := back[..|back| - 1];
      assert (front + back)[..|front + back| - 1] == front + init;
      assert (front + back)[|front + back| - 1] == back[|back| - 1];
      MapFilterConcat(front, init, f, keep);
    } else {
      assert front + back == front;
    }
  }

  /** `{ id: doc.id, ...doc.data() }`. */
  function WithId(d: UserDoc): Fields
  {
    Attach(d.id, d.data)
  }

  /** The deck for a viewer of role `viewerRole`: every user document with
      its id attached, kept when eligible, in query order. */
  function Deck(viewerRole: string, pool: seq<UserDoc>): (deck: seq<Fields>)
    ensures |deck| <= |pool|
    ensures forall e :: e in deck ==> Eligible(e, OppositeRole(viewerRole))
  {
    var want := OppositeRole(viewerRole);
    MapFilter(pool, WithId, e => Eligible(e, want))
  }

  /** Pool document `i` with its id attached is `e`, and passes the filter. */
  predicate DealtFrom(pool: seq<UserDoc>, i: int, e: Fields, wanted: string)
  {
    0 <= i < |pool| && e == Attach(pool[i].id, pool[i].data) && Eligible(e, wanted)
  }

  /** An entry is in the deck exactly when it is some pool document with its
      id attached that passes the filter; nothing else (likes, matches, the
      viewer's id) is consulted. */
  lemma DeckMembership(viewerRole: string, pool: seq<UserDoc>, e: Fields)
    ensures e in Deck(viewerRole, pool) <==> exists i :: DealtFrom(pool, i, e, OppositeRole(viewerRole))
  {
    var want := OppositeRole(viewerRole);
    var keep := e => Eligible(e, want);
    assert Deck(viewerRole, pool) == MapFilter(pool, WithId, keep);
    MapFilterMembership(pool, WithId, keep, e);
    if e in Deck(viewerRole, pool) {
      var i :| 0 <= i < |pool| && e == WithId(pool[i]) && keep(e);
      assert DealtFrom(pool, i, e, want);
    }
    if exists i :: DealtFrom(pool, i, e, want) {
      var i :| DealtFrom(pool, i, e, want);
      assert 0 <= i < |pool| && e == WithId(pool[i]) && keep(e);
    }
  }

  /** The deck keeps the pool's order: filtering a concatenation is the
      concatenation of the filtered parts. */
  lemma DeckPreservesOrder(viewerRole: string, front: seq<UserDoc>, back: seq<UserDoc>)
    ensures Deck(viewerRole, front + back) == Deck(viewerRole, front) + Deck(viewerRole, back)
  {
    var want := OppositeRole(viewerRole);
    MapFilterConcat(front, back, WithId, e => Eligible(e, want));
  }

  /** No profile of the viewer's own role is ever dealt, so the viewer's own
      document (whose role is the viewer's role) never appears. */
  lemma ViewerNeverDealt(viewerRole: string, pool: seq<UserDoc>, d: UserDoc)
    requires Get(d.data, "role") == Some(Str(viewerRole))
    ensures Attach(d.id, d.data) !in Deck(viewerRole, pool)
  {
    assert Get(Attach(d.id, d.data), "role") == Some(Str(viewerRole));
  }

  /** The deck-loading part of the screen. */
  class SwipeScreen {
    var cards: seq<Fields>
    var currentUserRole: Option<Value>
    var isLoading: bool

    constructor ()
      ensures cards == [] && currentUserRole == None && isLoading
    {
      cards, currentUserRole, isLoading := [], None, true;
    }

    /** The auth-state listener: read the viewer's document, then all users,
        and deal the deck. A missing viewer document returns before the
        loading flag is cleared; a role that is not text makes
        `toUpperCase` throw, which is reported like a failed read. */
    method OnAuthStateChanged(user: Option<Uid>, viewerDoc: Read<Fields>, pool: Result<seq<UserDoc>, string>)
      returns (alerted: bool)
      modifies this
      ensures user.Some? && viewerDoc.Missing? ==>
        cards == old(cards) && currentUserRole == old(currentUserRole) && isLoading == old(isLoading) && !alerted
      ensures !(user.Some? && viewerDoc.Missing?) ==> !isLoading
      ensures user.Some? && viewerDoc.Found? ==> currentUserRole == Get(viewerDoc.data, "role")
      ensures !(user.Some? && viewerDoc.Found?) ==> currentUserRole == old(currentUserRole)
      ensures cards ==
        if user.Some? && viewerDoc.Found? && currentUserRole.Some? && currentUserRole.value.Str? && pool.Success?
        then Deck(currentUserRole.value.s, pool.value)
        else old(cards)
      ensures alerted <==>
        user.Some? && (viewerDoc.ReadFailed? ||
                       (viewerDoc.Found? && !(currentUserRole.Some? && currentUserRole.value.Str? && pool.Success?)))
    {
      alerted := false;
      if user.Some? {
        match viewerDoc
        case ReadFailed =>
          alerted := true;
        case Missing =>
          return;
        case Found(data) =>
          currentUserRole := Get(data, "role");
          if !(currentUserRole.Some? && currentUserRole.value.Str?) {
            alerted := true;
          } else if pool.Failure? {
            alerted := true;
          } else {
            cards := Deck(currentUserRole.value.s, pool.value);
          }
      }
      isLoading := false;
    }
  }

  // ---------------------------------------------------------------------
  // Identifiers of likes and matches
  // ---------------------------------------------------------------------

  /** The id of the like document from `from` to `to`. */
  function LikeKey(from: Uid, to: Uid): string
  {
    from + "_" + to
  }

  /** JavaScript's default string order, one code unit after another: `a`
      sorts strictly before `b`. */
  predicate CodeUnitLess(a: string, b: string)
    decreases |a|
  {
    if a == [] then b != []
    else if b == [] then false
    else if a[0] != b[0] then a[0] < b[0]
    else CodeUnitLess(a[1..], b[1..])
  }

  lemma {:induction false} CodeUnitLessIrreflexive(a: string)
    ensures !CodeUnitLess(a, a)
    decreases |a|
  {
    if a != [] {
      CodeUnitLessIrreflexive(a[1..]);
    }
  }

  /** Of two different strings exactly one sorts before the other. */
  lemma {:induction false} CodeUnitLessTotal(a: string, b: string)
    requires a != b
    ensures CodeUnitLess(a, b) != CodeUnitLess(b, a)
    decreases |a|
  {
    if a != [] && b != [] && a[0] == b[0] {
      assert a == [a[0]] + a[1..] && b == [b[0]] + b[1..];
      CodeUnitLessTotal(a[1..], b[1..]);
    }
  }

  /** `[a, b].sort()`. */
  function SortedPair(a: Uid, b: Uid): seq<Uid>
  {
    if CodeUnitLess(b, a) then [b, a] else [a, b]
  }

  /** The canonical match id: the pair sorted and joined with `_`. */
  function MatchId(a: Uid, b: Uid): string
  {
    var p := SortedPair(a, b);
    p[0] + "_" + p[1]
  }

  /** Both members of a pair compute the same match id. */
  lemma MatchIdSymmetric(a: Uid, b: Uid)
    ensures MatchId(a, b) == MatchId(b, a)
  {
    if a != b {
      CodeUnitLessTotal(a, b);
    }
  }

  predicate NoUnderscore(s: string)
  {
    '_' !in s
  }

  /** In `p + "_" + q` with no `_` in `p`, the first `_` is at `|p|`. */
  lemma FirstUnderscore(p: string, q: string)
    requires NoUnderscore(p)
    ensures (p + "_" + q)[|p|] == '_'
    ensures forall i :: 0 <= i < |p| ==> (p + "_" + q)[i] != '_'
  {
    forall i | 0 <= i < |p|
      ensures (p + "_" + q)[i] != '_'
    {
      assert (p + "_" + q)[i] == p[i];
    }
  }

  /** Joining with `_` can be undone when the left parts hold no `_`. */
  lemma JoinInjective(p: string, q: string, r: string, s: string)
    requires NoUnderscore(p) && NoUnderscore(r)
    requires p + "_" + q == r + "_" + s
    ensures p == r && q == s
  {
    var x := p + "_" + q;
    FirstUnderscore(p, q);
    FirstUnderscore(r, s);
    assert |p| == |r|;
    assert p == x[..|p|] == r;
    assert q == x[|p| + 1..] == s;
  }

  /** Different ordered pairs of ids without `_` have different like keys. */
  lemma LikeKeyInjective(a: Uid, b: Uid, c: Uid, d: Uid)
    requires NoUnderscore(a) && NoUnderscore(c)
    ensures LikeKey(a, b) == LikeKey(c, d) <==> a == c && b == d
  {
    if LikeKey(a, b) == LikeKey(c, d) {
      JoinInjective(a, b, c, d);
    }
  }

  /** The match id names the unordered pair: for ids without `_`, equal ids
      mean the same two members. */
  lemma MatchIdInjective(a: Uid, b: Uid, c: Uid, d: Uid)
    requires NoUnderscore(a) && NoUnderscore(b) && NoUnderscore(c) && NoUnderscore(d)
    requires MatchId(a, b) == MatchId(c, d)
    ensures (a == c && b == d) || (a == d && b == c)
  {
    var p, q := SortedPair(a, b), SortedPair(c, d);
    JoinInjective(p[0], p[1], q[0], q[1]);
  }

  /** With `_` inside an id, two different likes share a document id. */
  lemma LikeKeysCollideWithUnderscores()
    ensures LikeKey("a_b", "c") == LikeKey("a", "b_c")
  {
  }

  // ---------------------------------------------------------------------
  // Match formation as a state machine over the store
  // ---------------------------------------------------------------------

  datatype Like = Like(from: Uid, to: Uid, timestamp: Time)

  /** A match document. `matchedAt` is written as the ISO-8601 text of the
      client clock; here it is the instant that text denotes. */
  datatype MatchDoc = MatchDoc(users: seq<Uid>, matchedAt: Time)

  /** The `likes` and `matches` collections. */
  datatype Db = Db(likes: map<string, Like>, matches: map<string, MatchDoc>)

  /** How one right swipe ends; the first three are rejected awaits, which
      the handler does not catch. */
  datatype Outcome = LikeWriteFailed | ReverseReadFailed | MatchWriteFailed | NotMatched | Matched(matchId: string)

  /** Where a right swipe stands: before the like write, after it, after a
      positive reverse check, or finished. */
  datatype Phase = Start | Liked | Mutual | Done(outcome: Outcome)

  datatype Run = Run(swiper: Uid, swiped: Uid, phase: Phase)

  /** One awaited store call of a right swipe; `ok` says whether it resolved
      and `now` is the client clock when it was issued. */
  function Step(db: Db, run: Run, ok: bool, now: Time): (next: (Db, Run))
    requires !run.phase.Done?
    ensures next.1.swiper == run.swiper && next.1.swiped == run.swiped
    ensures !ok ==> next.0 == db && next.1.phase.Done?
    ensures run.phase.Start? ==> next.1.phase.Liked? || next.1.phase.Done?
    ensures run.phase.Liked? ==> next.1.phase.Mutual? || next.1.phase.Done?
    ensures run.phase.Mutual? ==> next.1.phase.Done?
  {
    match run.phase
    case Start =>
      if !ok then (db, run.(phase := Done(LikeWriteFailed)))
      else
        var like := Like(run.swiper, run.swiped, now);
        (db.(likes := db.likes[LikeKey(run.swiper, run.swiped) := like]), run.(phase := Liked))
    case Liked =>
      if !ok then (db, run.(phase := Done(ReverseReadFailed)))
      else if LikeKey(run.swiped, run.swiper) in db.likes then (db, run.(phase := Mutual))
      else (db, run.(phase := Done(NotMatched)))
    case Mutual =>
      var id := MatchId(run.swiper, run.swiped);
      if !ok then (db, run.(phase := Done(MatchWriteFailed)))
      else (db.(matches := db.matches[id := MatchDoc([run.swiper, run.swiped], now)]), run.(phase := Done(Matched(id))))
  }

  /** A whole right swipe run on its own: like write, reverse read, match
      write, each either resolving or rejected. */
  function SwipeRightEffect(db: Db, swiper: Uid, swiped: Uid, likeOk: bool, readOk: bool, writeOk: bool,
                            likedAt: Time, matchedAt: Time): (Db, Outcome)
  {
    var (db1, r1) := Step(db, Run(swiper, swiped, Start), likeOk, likedAt);
    if r1.phase.Done? then (db1, r1.phase.outcome)
    else
      var (db2, r2) := Step(db1, r1, readOk, likedAt);
      if r2.phase.Done? then (db2, r2.phase.outcome)
      else
        var (db3, r3) := Step(db2, r2, writeOk, matchedAt);
        (db3, r3.phase.outcome)
  }

  /** A right swipe writes a match exactly when all three awaits resolve and
      the reverse like is there when it is read (after the swiper's own like
      has been written); the record holds `[swiper, swiped]` under the
      canonical id. A rejected like write stops everything. */
  lemma SwipeRightContract(db: Db, swiper: Uid, swiped: Uid, likeOk: bool, readOk: bool, writeOk: bool,
                           likedAt: Time, matchedAt: Time)
    ensures var (db', out) := SwipeRightEffect(db, swiper, swiped, likeOk, readOk, writeOk, likedAt, matchedAt);
      && (out.Matched? <==>
            likeOk && readOk && writeOk &&
            (LikeKey(swiped, swiper) == LikeKey(swiper, swiped) || LikeKey(swiped, swiper) in db.likes))
      && (out.Matched? ==>
            out.matchId == MatchId(swiper, swiped) &&
            db'.matches == db.matches[MatchId(swiper, swiped) := MatchDoc([swiper, swiped], matchedAt)])
      && (!out.Matched? ==> db'.matches == db.matches)
      && (likeOk ==> db'.likes == db.likes[LikeKey(swiper, swiped) := Like(swiper, swiped, likedAt)])
      && (!likeOk ==> db' == db && out == LikeWriteFailed)
  {
  }

  /** Steps of several right swipes in any order: event `e` advances run
      `e.run` unless that run has finished. */
  datatype Event = Event(run: nat, ok: bool, now: Time)

  function Interleave(db: Db, runs: seq<Run>, schedule: seq<Event>): (r: (Db, seq<Run>))
    ensures |r.1| == |runs|
    ensures forall i :: 0 <= i < |runs| ==> r.1[i].swiper == runs[i].swiper && r.1[i].swiped == runs[i].swiped
    decreases |schedule|
  {
    if schedule == [] then (db, runs)
    else
      var ev := schedule[0];
      if ev.run < |runs| && !runs[ev.run].phase.Done? then
        var (db1, r1) := Step(db, runs[ev.run], ev.ok, ev.now);
        Interleave(db1, runs[ev.run := r1], schedule[1..])
      else
        Interleave(db, runs, schedule[1..])
  }

  /** Every match record sits under the canonical id of its two users. */
  ghost predicate Canonical(db: Db)
  {
    forall k :: k in db.matches ==>
      |db.matches[k].users| == 2 && k == MatchId(db.matches[k].users[0], db.matches[k].users[1])
  }

  lemma StepKeepsCanonical(db: Db, run: Run, ok: bool, now: Time)
    requires !run.phase.Done?
    requires Canonical(db)
    ensures Canonical(Step(db, run, ok, now).0)
  {
  }

  /** Whatever the interleaving, match records stay canonical. */
  lemma {:induction false} InterleaveKeepsCanonical(db: Db, runs: seq<Run>, schedule: seq<Event>)
    requires Canonical(db)
    ensures Canonical(Interleave(db, runs, schedule).0)
    decreases |schedule|
  {
    if schedule != [] {
      var ev := schedule[0];
      if ev.run < |runs| && !runs[ev.run].phase.Done? {
        var (db1, r1) := Step(db, runs[ev.run], ev.ok, ev.now);
        StepKeepsCanonical(db, runs[ev.run], ev.ok, ev.now);
        InterleaveKeepsCanonical(db1, runs[ev.run := r1], schedule[1..]);
      } else {
        InterleaveKeepsCanonical(db, runs, schedule[1..]);
      }
    }
  }

  /** In a canonical store two records for the same unordered pair are one
      record: a second completion overwrites the first. */
  lemma OneRecordPerPair(db: Db, k1: string, k2: string)
    requires Canonical(db)
    requires k1 in db.matches && k2 in db.matches
    requires var u1, u2 := db.matches[k1].users, db.matches[k2].users;
      (u1[0] == u2[0] && u1[1] == u2[1]) || (u1[0] == u2[1] && u1[1] == u2[0])
    ensures k1 == k2
  {
    var u := db.matches[k1].users;
    MatchIdSymmetric(u[0], u[1]);
  }

  /** Swiping never removes a like or a match, however runs interleave. */
  lemma {:induction false} InterleaveOnlyAdds(db: Db, runs: seq<Run>, schedule: seq<Event>)
    ensures db.likes.Keys <= Interleave(db, runs, schedule).0.likes.Keys
    ensures db.matches.Keys <= Interleave(db, runs, schedule).0.matches.Keys
    decreases |schedule|
  {
    if schedule != [] {
      var ev := schedule[0];
      if ev.run < |runs| && !runs[ev.run].phase.Done? {
        var (db1, r1) := Step(db, runs[ev.run], ev.ok, ev.now);
        InterleaveOnlyAdds(db1, runs[ev.run := r1], schedule[1..]);
      } else {
        InterleaveOnlyAdds(db, runs, schedule[1..]);
      }
    }
  }

  /** What holds throughout two successful runs `a` to `b` and `b` to `a`:
      each run past its first step has its like stored, no run has failed,
      a run that matched left the canonical record, and the two runs have
      not both missed each other. */
  ghost predicate PairInvariant(db: Db, runs: seq<Run>, a: Uid, b: Uid)
  {
    && |runs| == 2
    && runs[0].swiper == a && runs[0].swiped == b
    && runs[1].swiper == b && runs[1].swiped == a
    && (!runs[0].phase.Start? ==> LikeKey(a, b) in db.likes)
    && (!runs[1].phase.Start? ==> LikeKey(b, a) in db.likes)
    && (forall i :: 0 <= i < 2 && runs[i].phase.Done? ==>
          runs[i].phase.outcome.NotMatched? || runs[i].phase.outcome.Matched?)
    && (forall i :: 0 <= i < 2 && runs[i].phase.Done? && runs[i].phase.outcome.Matched? ==>
          MatchId(a, b) in db.matches)
    && !(runs[0].phase == Done(NotMatched) && runs[1].phase == Done(NotMatched))
  }

  lemma StepKeepsPairInvariant(db: Db, runs: seq<Run>, a: Uid, b: Uid, i: nat, now: Time)
    requires PairInvariant(db, runs, a, b)
    requires i < 2 && !runs[i].phase.Done?
    ensures var (db1, r1) := Step(db, runs[i], true, now); PairInvariant(db1, runs[i := r1], a, b)
  {
    MatchIdSymmetric(a, b);
  }

  lemma {:induction false} InterleaveKeepsPairInvariant(db: Db, runs: seq<Run>, a: Uid, b: Uid, schedule: seq<Event>)
    requires PairInvariant(db, runs, a, b)
    requires forall i :: 0 <= i < |schedule| ==> schedule[i].ok
    ensures var (db', runs') := Interleave(db, runs, schedule); PairInvariant(db', runs', a, b)
    decreases |schedule|
  {
    if schedule != [] {
      var ev := schedule[0];
      if ev.run < |runs| && !runs[ev.run].phase.Done? {
        var (db1, r1) := Step(db, runs[ev.run], ev.ok, ev.now);
        StepKeepsPairInvariant(db, runs, a, b, ev.run, ev.now);
        InterleaveKeepsPairInvariant(db1, runs[ev.run := r1], a, b, schedule[1..]);
      } else {
        InterleaveKeepsPairInvariant(db, runs, a, b, schedule[1..]);
      }
    }
  }

  /** When `a` swipes right on `b` and `b` on `a`, and every await resolves,
      then however the two runs interleave, once both have finished at least
      one of them reports the match and the record is under the canonical
      id: the reverse check cannot miss on both sides. */
  lemma MutualSwipesAlwaysMatch(db: Db, a: Uid, b: Uid, schedule: seq<Event>)
    requires forall i :: 0 <= i < |schedule| ==> schedule[i].ok
    ensures var (db', runs') := Interleave(db, [Run(a, b, Start), Run(b, a, Start)], schedule);
      runs'[0].phase.Done? && runs'[1].phase.Done? ==>
        && MatchId(a, b) in db'.matches
        && (runs'[0].phase.outcome.Matched? || runs'[1].phase.outcome.Matched?)
  {
    var runs := [Run(a, b, Start), Run(b, a, Start)];
    assert PairInvariant(db, runs, a, b);
    InterleaveKeepsPairInvariant(db, runs, a, b, schedule);
  }

  /** The `likes` and `matches` collections as the handler sees them. */
  class MatchStore {
    var likes: map<string, Like>
    var matches: map<string, MatchDoc>

    constructor (db: Db)
      ensures likes == db.likes && matches == db.matches
    {
      likes, matches := db.likes, db.matches;
    }

    function State(): Db
      reads this
    {
      Db(likes, matches)
    }

    /** `handleSwipeRight`: the three awaits in order, with no catch. */
    method SwipeRight(swiper: Uid, swiped: Uid, likeOk: bool, readOk: bool, writeOk: bool,
                      likedAt: Time, matchedAt: Time) returns (outcome: Outcome)
      modifies this
      ensures (State(), outcome) ==
        SwipeRightEffect(old(State()), swiper, swiped, likeOk, readOk, writeOk, likedAt, matchedAt)
    {
      if !likeOk {
        return LikeWriteFailed;
      }
      likes := likes[LikeKey(swiper, swiped) := Like(swiper, swiped, likedAt)];
      if !readOk {
        return ReverseReadFailed;
      }
      if LikeKey(swiped, swiper) !in likes {
        return NotMatched;
      }
      var matchId := MatchId(swiper, swiped);
      if !writeOk {
        return MatchWriteFailed;
      }
      matches := matches[matchId := MatchDoc([swiper, swiped], matchedAt)];
      outcome := Matched(matchId);
    }
  }
}
