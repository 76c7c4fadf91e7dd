/** The article record and the facts about sequences of articles that both the
    HTTP store (main.go) and the demo store (temp/demo.go) rely on: the
    linear scan by ID, the splice that deletes, the field overwrite that updates,
    and the ID-allocation invariant. */
module Articles {

  /** A clock reading in nanoseconds. Both programs call time.Now(); here the
      reading is supplied by the caller. */
  type Time = int

  /** One hour in nanoseconds, Go's time.Hour. */
  const Hour: int := 3_600_000_000_000

  datatype Option<+T> = None | Some(value: T)

  /** The single managed record. */
  datatype Article = Article(
    id: int,
    title: string,
    desc: string,
    content: string,
    created: Time,
    updated: Time)

  /** The IDs of a sequence of articles, in order. */
  function Ids(s: seq<Article>): seq<int>
  {
    seq(|s|, k requires 0 <= k < |s| => s[k].id)
  }

  /** The set of IDs present in a sequence of articles. */
  ghost function IdSet(s: seq<Article>): set<int>
  {
    set k | 0 <= k < |s| :: s[k].id
  }

  predicate HasId(s: seq<Article>, id: int)
  {
    exists k | 0 <= k < |s| :: s[k].id == id
  }

  predicate IdsUnique(s: seq<Article>)
  {
    forall i, j | 0 <= i < j < |s| :: s[i].id != s[j].id
  }

  // ---------------------------------------------------------------------------
  // The scan: `for i, article := range articles { if article.ID == id { ... } }`

  /** The position the scan stops at: the first article whose ID matches, or
      -1 when none does. */
  function FindIndex(s: seq<Article>, id: int): (r: int)
    ensures -1 <= r < |s|
    ensures r == -1 <==> !HasId(s, id)
    ensures 0 <= r ==> s[r].id == id && forall k | 0 <= k < r :: s[k].id != id
  {
    if s == [] then -1
    else if s[0].id == id then 0
    else
      var r := FindIndex(s[1..], id);
      if r == -1 then -1 else r + 1
  }

  /** The range loop itself, stopping at the first match. */
  method IndexOf(s: seq<Article>, id: int) returns (i: int)
    ensures i == FindIndex(s, id)
  {
    i := 0;
    while i < |s|
      invariant 0 <= i <= |s|
      invariant forall k | 0 <= k < i :: s[k].id != id
    {
      if s[i].id == id {
        return;
      }
      i := i + 1;
    }
    i := -1;
  }

  /** With unique IDs the scan finds every article at its own position. */
  lemma FindUnique(s: seq<Article>, k: int)
    requires IdsUnique(s) && 0 <= k < |s|
    ensures FindIndex(s, s[k].id) == k
  {
  }

  // ---------------------------------------------------------------------------
  // The splice: `articles = append(articles[:i], articles[i+1:]...)`

  /** The sequence without its element at position i; the survivors keep their
      relative order. */
  function RemoveAt(s: seq<Article>, i: int): (r: seq<Article>)
    requires 0 <= i < |s|
    ensures |r| == |s| - 1
    ensures forall k | 0 <= k < i :: r[k] == s[k]
    ensures forall k | i <= k < |r| :: r[k] == s[k + 1]
    ensures multiset(r) + multiset{s[i]} == multiset(s)
  {
    assert s == s[..i] + [s[i]] + s[i + 1..];
    s[..i] + s[i + 1..]
  }

  /** Removing the element at i drops exactly its ID and keeps the others
      distinct. */
  lemma RemoveAtIds(s: seq<Article>, i: int)
    requires IdsUnique(s) && 0 <= i < |s|
    ensures IdsUnique(RemoveAt(s, i))
    ensures IdSet(RemoveAt(s, i)) == IdSet(s) - {s[i].id}
    ensures !HasId(RemoveAt(s, i), s[i].id)
  {
    var r := RemoveAt(s, i);
    forall x | x in IdSet(s) - {s[i].id} ensures x in IdSet(r) {
      var k :| 0 <= k < |s| && s[k].id == x;
      if k < i { assert r[k].id == x; } else { assert r[k - 1].id == x; }
    }
  }

  // ---------------------------------------------------------------------------
  // The field overwrite of an update

  /** An update value: empty means "leave the field as it is". */
  function Prefer(supplied: string, current: string): string
  {
    if supplied != "" then supplied else current
  }

  /** The in-place update of one article: non-empty supplied texts replace the
      stored ones, Updated is always refreshed, ID and Created are kept. */
  function Patch(a: Article, title: string, desc: string, content: string, now: Time): Article
  {
    a.(title := Prefer(title, a.title),
       desc := Prefer(desc, a.desc),
       content := Prefer(content, a.content),
       updated := now)
  }

  /** An update never changes an article's identity or creation time, and a
      field whose supplied value is empty stays as it was. */
  lemma PatchKeeps(a: Article, title: string, desc: string, content: string, now: Time)
    ensures var r := Patch(a, title, desc, content, now);
      && r.id == a.id && r.created == a.created && r.updated == now
      && (title == "" ==> r.title == a.title) && (title != "" ==> r.title == title)
      && (desc == "" ==> r.desc == a.desc) && (desc != "" ==> r.desc == desc)
      && (content == "" ==> r.content == a.content) && (content != "" ==> r.content == content)
  {
  }

  /** Two updates in a row are one update whose supplied fields are the later
      non-empty ones, falling back to the earlier ones. */
  lemma PatchTwice(a: Article, t1: string, d1: string, c1: string, n1: Time,
                   t2: string, d2: string, c2: string, n2: Time)
    ensures Patch(Patch(a, t1, d1, c1, n1), t2, d2, c2, n2)
         == Patch(a, Prefer(t2, t1), Prefer(d2, d1), Prefer(c2, c1), n2)
  {
  }

  /** Repeating an update changes nothing but Updated. */
  lemma PatchIdempotent(a: Article, title: string, desc: string, content: string, n1: Time, n2: Time)
    ensures Patch(Patch(a, title, desc, content, n1), title, desc, content, n2)
         == Patch(a, title, desc, content, n2)
  {
    PatchTwice(a, title, desc, content, n1, title, desc, content, n2);
  }

  // ---------------------------------------------------------------------------
  // ID allocation: `nextID` hands out IDs and is incremented, never decreased

  /** The collection invariant: live IDs are distinct, every live ID was handed
      out, and every ID ever handed out is below the counter. */
  ghost predicate Allocation(s: seq<Article>, nextId: int, issued: set<int>)
  {
    && IdsUnique(s)
    && IdSet(s) <= issued
    && forall x | x in issued :: x < nextId
  }

  /** Under the invariant every live ID is below the counter. */
  lemma AllocationBelow(s: seq<Article>, nextId: int, issued: set<int>, k: int)
    requires Allocation(s, nextId, issued) && 0 <= k < |s|
    ensures s[k].id < nextId
  {
    assert s[k].id in IdSet(s);
  }

  /** A collection that satisfies the invariant still satisfies it when only
      its live IDs count as handed out, which is all a saved file records. */
  lemma LiveIdsAllocation(s: seq<Article>, nextId: int, issued: set<int>)
    requires Allocation(s, nextId, issued)
    ensures Allocation(s, nextId, IdSet(s))
  {
  }

  /** Appending an article that carries the counter's value and then bumping
      the counter keeps the invariant; the new ID was never handed out before. */
  lemma AppendKeepsAllocation(s: seq<Article>, nextId: int, issued: set<int>, a: Article)
    requires Allocation(s, nextId, issued) && a.id == nextId
    ensures nextId !in issued
    ensures Allocation(s + [a], nextId + 1, issued + {nextId})
  {
  }

  /** Overwriting one article with a record that keeps its ID keeps the
      invariant. */
  lemma ReplaceKeepsAllocation(s: seq<Article>, nextId: int, issued: set<int>, i: int, a: Article)
    requires Allocation(s, nextId, issued) && 0 <= i < |s| && a.id == s[i].id
    ensures Allocation(s[i := a], nextId, issued)
  {
  }

  /** Splicing out one article keeps the invariant with the same counter. */
  lemma RemoveKeepsAllocation(s: seq<Article>, nextId: int, issued: set<int>, i: int)
    requires Allocation(s, nextId, issued) && 0 <= i < |s|
    ensures Allocation(RemoveAt(s, i), nextId, issued)
  {
  }
}
