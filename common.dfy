/** Shared vocabulary of the model: optional values and results, the shape of a
    document in the backing store, JavaScript's notion of white space and
    truthiness, and the `users` collection that several screens write. */
module Common {

  datatype Option<+T> = None | Some(value: T)

  datatype Result<+T, +E> = Success(value: T) | Failure(error: E)

  /** The outcome of one awaited document read: the document, no such
      document, or a rejected promise. */
  datatype Read<+T> = Found(data: T) | Missing | ReadFailed

  /** A user id handed out by the identity service. */
  type Uid = string

  /** An instant, from the client's clock or the store's, abstracted to an
      ordered domain. */
  type Time = int

  /** A field value of a loosely typed store document. `ServerTimestamp` is
      the placeholder a client writes; the store replaces it by `Stamp` with
      its own clock. */
  datatype Value =
    | Str(s: string)
    | Bool(b: bool)
    | List(items: seq<string>)
    | Object(fields: map<string, Value>)
    | ServerTimestamp
    | Stamp(at: Time)
    | Null

  /** The fields of a store document. */
  type Fields = map<string, Value>

  /** Reading a property of a document: `undefined` is `None`. */
  function Get(f: Fields, key: string): Option<Value>
  {
    if key in f then Some(f[key]) else None
  }

  /** JavaScript truthiness of a property value. */
  predicate Truthy(v: Option<Value>)
  {
    match v
    case None => false
    case Some(Str(s)) => s != ""
    case Some(Bool(b)) => b
    case Some(Null) => false
    case Some(_) => true
  }

  /** `{ id, ...data }`: the data with its document id attached; a stored
      `id` field wins over the attached one, as in a JavaScript spread. */
  function Attach(id: string, data: Fields): (e: Fields)
    ensures e.Keys == data.Keys + {"id"}
    ensures forall k :: k in data ==> e[k] == data[k]
    ensures "id" !in data ==> e["id"] == Str(id)
  {
    map["id" := Str(id)] + data
  }

  /** `data.field || ''` for a text field. */
  function TextOr(v: Option<Value>): (s: string)
    ensures s != "" <==> v.Some? && v.value.Str? && v.value.s != ""
  {
    if v.Some? && v.value.Str? then v.value.s else ""
  }

  /** `data.field || []` for a list field. */
  function ListOr(v: Option<Value>): (xs: seq<string>)
    ensures v.Some? && v.value.List? ==> xs == v.value.items
    ensures !(v.Some? && v.value.List?) ==> xs == []
  {
    if v.Some? && v.value.List? then v.value.items else []
  }

  /** The characters that `String.prototype.trim` removes and that the
      regular-expression class `\s` matches. */
  predicate IsSpace(c: char)
  {
    || c == ' ' || c == '\t' || c == '\n' || c == '\U{B}' || c == '\U{C}' || c == '\r'
    || c == '\U{A0}' || c == '\U{1680}' || ('\U{2000}' <= c <= '\U{200A}')
    || c == '\U{2028}' || c == '\U{2029}' || c == '\U{202F}' || c == '\U{205F}'
    || c == '\U{3000}' || c == '\U{FEFF}'
  }

  /** How many white-space characters open the string. */
  function LeadingSpaces(s: string): (k: nat)
    ensures k <= |s|
    ensures forall i :: 0 <= i < k ==> IsSpace(s[i])
    ensures k < |s| ==> !IsSpace(s[k])
  {
    if |s| > 0 && IsSpace(s[0]) then 1 + LeadingSpaces(s[1..]) else 0
  }

  /** How many white-space characters close the string. */
  function TrailingSpaces(s: string): (k: nat)
    ensures k <= |s|
    ensures forall i :: |s| - k <= i < |s| ==> IsSpace(s[i])
    ensures k < |s| ==> !IsSpace(s[|s| - 1 - k])
  {
    if |s| > 0 && IsSpace(s[|s| - 1]) then 1 + TrailingSpaces(s[..|s| - 1]) else 0
  }

  /** `s.trim()`: the string with its leading and trailing white space removed. */
  function Trim(s: string): (r: string)
    ensures |r| <= |s|
    ensures r == "" <==> forall i :: 0 <= i < |s| ==> IsSpace(s[i])
    ensures r != "" ==> !IsSpace(r[0]) && !IsSpace(r[|r| - 1])
  {
    var a := LeadingSpaces(s);
    var t := s[a..];
    var b := TrailingSpaces(t);
    assert a < |s| ==> t[0] == s[a];
    t[..|t| - b]
  }

  /** Trimming removes white space at both ends and nothing else: the result
      is the slice after the leading spaces, and what follows it is white
      space too. */
  lemma TrimRemovesOnlySpaces(s: string)
    ensures LeadingSpaces(s) + |Trim(s)| <= |s|
    ensures Trim(s) == s[LeadingSpaces(s)..LeadingSpaces(s) + |Trim(s)|]
    ensures forall i :: LeadingSpaces(s) + |Trim(s)| <= i < |s| ==> IsSpace(s[i])
  {
    var a := LeadingSpaces(s);
    var t := s[a..];
    var b := TrailingSpaces(t);
    assert Trim(s) == t[..|t| - b];
    assert t[..|t| - b] == s[a..a + |t| - b];
    forall i | a + |t| - b <= i < |s|
      ensures IsSpace(s[i])
    {
      assert s[i] == t[i - a];
    }
  }

  /** `uid.slice(0, 8)`: the public id derived from a user id. */
  function PublicId(uid: Uid): (p: string)
    ensures |p| == if |uid| < 8 then |uid| else 8
    ensures p == uid[..|p|]
  {
    if |uid| <= 8 then uid else uid[..8]
  }

  /** The `users` collection: user id to document. */
  class UserStore {
    var docs: map<Uid, Fields>

    constructor (docs: map<Uid, Fields>)
      ensures this.docs == docs
    {
      this.docs := docs;
    }
  }

  /** `set(patch, { merge: true })`: top-level fields of `patch` overwrite
      those of the existing document, the others stay. */
  function MergeInto(existing: Option<Fields>, patch: Fields): (d: Fields)
    ensures d.Keys == patch.Keys + (if existing.Some? then existing.value.Keys else {})
    ensures forall k :: k in patch ==> d[k] == patch[k]
    ensures existing.Some? ==> forall k :: k in existing.value && k !in patch ==> d[k] == existing.value[k]
  {
    (if existing.Some? then existing.value else map[]) + patch
  }

  /** No element occurs twice. */
  predicate Distinct<T(==)>(s: seq<T>)
  {
    forall i, j :: 0 <= i < j < |s| ==> s[i] != s[j]
  }

  /** `s` is ordered by `key`, smallest first. */
  predicate Ascending<T>(key: T -> int, s: seq<T>)
  {
    forall i, j :: 0 <= i < j < |s| ==> key(s[i]) <= key(s[j])
  }

  /** Places `x` before the first element whose key is not smaller. */
  function InsertByKey<T>(key: T -> int, x: T, s: seq<T>): (r: seq<T>)
    ensures multiset(r) == multiset(s) + multiset{x}
  {
    if s == [] || key(x) <= key(s[0]) then
      [x] + s
    else
      assert s == [s[0]] + s[1..];
      [s[0]] + InsertByKey(key, x, s[1..])
  }

  lemma {:induction false} InsertKeepsAscending<T>(key: T -> int, x: T, s: seq<T>)
    requires Ascending(key, s)
    ensures Ascending(key, InsertByKey(key, x, s))
  {
    if s != [] && key(s[0]) < key(x) {
      var t := InsertByKey(key, x, s[1..]);
      InsertKeepsAscending(key, x, s[1..]);
      forall k | 0 <= k < |t|
        ensures key(s[0]) <= key(t[k])
      {
        assert t[k] in multiset(s[1..]) + multiset{x};
        if t[k] != x {
          assert t[k] in s[1..];
        }
      }
    }
  }

  /** JavaScript's `Array.prototype.sort` with a comparator on `key`: a
      stable sort, smallest key first. */
  function SortByKey<T>(key: T -> int, s: seq<T>): (r: seq<T>)
    ensures multiset(r) == multiset(s)
  {
    if s == [] then []
    else
      assert s == [s[0]] + s[1..];
      InsertByKey(key, s[0], SortByKey(key, s[1..]))
  }

  /** The sort's result is ordered and holds the same elements. */
  lemma {:induction false} SortByKeyAscending<T>(key: T -> int, s: seq<T>)
    ensures Ascending(key, SortByKey(key, s))
  {
    if s != [] {
      SortByKeyAscending(key, s[1..]);
      InsertKeepsAscending(key, s[0], SortByKey(key, s[1..]));
    }
  }
}
