/** The article store behind the HTTP service (main.go): the package globals
    `articles` and `nextID` as the fields of one Store object, the seed routine,
    startup load-or-seed, and the store effect of each handler. Routing, JSON,
    locking and the background saves are not part of this model. */
module Server {
  import opened Articles

  /** What a handler reports, reduced to the store's outcome. */
  datatype Outcome =
    | Ok(article: Article)   // created, found or updated: the stored record
    | Deleted
    | ValidationError        // a required field was empty on create
    | NotFound

  /** What the persisted file holds: the collection and the counter. */
  datatype Snapshot = Snapshot(articles: seq<Article>, nextId: int)

  /** The fields a create must supply. */
  predicate Filled(a: Article)
  {
    a.title != "" && a.desc != "" && a.content != ""
  }

  // The texts of the three seed articles.
  const SeedTitle1 := "Introduction to Go"
  const SeedDesc1 := "Learn the basics of Go programming language"
  const SeedContent1 := "Go is a statically typed, compiled programming language designed at Google. It's syntactically similar to C, but with memory safety, garbage collection, structural typing, and CSP-style concurrency."
  const SeedTitle2 := "Building REST APIs with Go"
  const SeedDesc2 := "A comprehensive guide to creating REST APIs in Go"
  const SeedContent2 := "REST APIs are a fundamental part of modern web development. Go provides excellent support for building fast and efficient web services with its built-in net/http package and third-party routers like Gorilla Mux."
  const SeedTitle3 := "Database Integration in Go"
  const SeedDesc3 := "How to connect Go applications with databases"
  const SeedContent3 := "Go supports various databases including SQLite, PostgreSQL, MySQL, MariaDB, and more. This article covers best practices for database integration in Go applications."

  /** The three seed articles, stamped 24, 12 and 6 hours before `now`. */
  function SeedArticles(now: Time): (r: seq<Article>)
    ensures Ids(r) == [1, 2, 3]
    ensures IdsUnique(r) && IdSet(r) == {1, 2, 3}
    ensures forall k | 0 <= k < |r| :: Filled(r[k]) && r[k].created == r[k].updated < now
    ensures r[0].created < r[1].created < r[2].created
  {
    var r := [
      Article(1, SeedTitle1, SeedDesc1, SeedContent1, now - 24 * Hour, now - 24 * Hour),
      Article(2, SeedTitle2, SeedDesc2, SeedContent2, now - 12 * Hour, now - 12 * Hour),
      Article(3, SeedTitle3, SeedDesc3, SeedContent3, now - 6 * Hour, now - 6 * Hour)
    ];
    assert r[0].id in IdSet(r) && r[1].id in IdSet(r) && r[2].id in IdSet(r);
    r
  }

  class Store {
    var articles: seq<Article>
    var nextId: int
    /** Every ID this store has handed out since it was started or seeded;
        after a load, the IDs of the loaded articles. */
    ghost var issued: set<int>

    ghost predicate Valid()
      reads this
    {
      Allocation(articles, nextId, issued)
    }

    /** Every live article has a title, a description and a content. */
    predicate AllFilled()
      reads this
    {
      forall k | 0 <= k < |articles| :: Filled(articles[k])
    }

    function Snap(): Snapshot
      reads this
    {
      Snapshot(articles, nextId)
    }

    /** The globals before initialisation: no articles, `nextID = 1`. */
    constructor ()
      ensures articles == [] && nextId == 1 && issued == {}
      ensures Valid() && AllFilled()
    {
      articles, nextId := [], 1;
      issued := {};
    }

    /** createSampleData: both globals are replaced by the seed. */
    method CreateSampleData(now: Time)
      modifies this
      ensures articles == SeedArticles(now) && nextId == 4 && issued == {1, 2, 3}
      ensures Valid() && AllFilled()
    {
      articles, nextId := SeedArticles(now), 4;
      issued := {1, 2, 3};
    }

    /** A successful loadArticles: both globals are replaced by the decoded
        snapshot, which is not checked against the ID invariant. */
    method Load(snap: Snapshot)
      modifies this
      ensures Snap() == snap && issued == IdSet(snap.articles)
    {
      articles, nextId := snap.articles, snap.nextId;
      issued := IdSet(snap.articles);
    }

    /** initDatabase: `file` is what loadArticles decoded, None when opening or
        decoding failed; the result is the snapshot written by the seeding
        save, None when nothing is saved. */
    method InitDatabase(file: Option<Snapshot>, now: Time) returns (written: Option<Snapshot>)
      modifies this
      ensures file.Some? ==>
        Snap() == file.value && issued == IdSet(file.value.articles) && written == None
      ensures file.None? ==> articles == SeedArticles(now) && nextId == 4 && issued == {1, 2, 3}
      ensures file.None? ==> Valid() && AllFilled() && written == Some(Snap())
    {
      if file.Some? {
        Load(file.value);
        written := None;
      } else {
        CreateSampleData(now);
        written := Some(Snap());
      }
    }

    /** getArticle: the first article with the ID, read without change. */
    method Get(id: int) returns (res: Outcome)
      ensures res.Ok? || res.NotFound?
      ensures res.NotFound? <==> !HasId(articles, id)
      ensures res.Ok? ==> res.article.id == id && res.article == articles[FindIndex(articles, id)]
    {
      var i := IndexOf(articles, id);
      if i == -1 {
        res := NotFound;
      } else {
        res := Ok(articles[i]);
      }
    }

    /** createArticle: `body` is the decoded request. It is rejected when a
        text field is empty; otherwise its ID and timestamps are overwritten,
        the counter is bumped and the record is appended. */
    method Create(body: Article, now: Time) returns (res: Outcome)
      modifies this
      ensures res.Ok? || res.ValidationError?
      ensures res.ValidationError? <==> !Filled(body)
      ensures res.ValidationError? ==>
        articles == old(articles) && nextId == old(nextId) && issued == old(issued)
      ensures res.Ok? ==>
        && res.article == body.(id := old(nextId), created := now, updated := now)
        && articles == old(articles) + [res.article]
        && nextId == old(nextId) + 1
        && issued == old(issued) + {res.article.id}
      ensures old(Valid()) ==> Valid() && (res.Ok? ==> res.article.id !in old(issued))
      ensures old(AllFilled()) ==> AllFilled()
    {
      if body.title == "" || body.desc == "" || body.content == "" {
        return ValidationError;
      }
      var a := body.(id := nextId, created := now, updated := now);
      if Valid() {
        AppendKeepsAllocation(articles, nextId, issued, a);
      }
      nextId := nextId + 1;
      articles := articles + [a];
      issued := issued + {a.id};
      res := Ok(a);
    }

    /** updateArticle: the first article with the ID gets the non-empty texts
        of `body` and a fresh Updated; nothing else changes. */
    method Update(id: int, body: Article, now: Time) returns (res: Outcome)
      modifies this
      ensures nextId == old(nextId) && issued == old(issued)
      ensures res.Ok? || res.NotFound?
      ensures res.NotFound? <==> !HasId(old(articles), id)
      ensures res.NotFound? ==> articles == old(articles)
      ensures res.Ok? ==>
        var i := FindIndex(old(articles), id);
        && res.article == Patch(old(articles)[i], body.title, body.desc, body.content, now)
        && articles == old(articles)[i := res.article]
        && res.article.id == id && res.article.created == old(articles)[i].created
        && res.article.updated == now
      ensures old(Valid()) ==> Valid()
      ensures old(AllFilled()) ==> AllFilled()
    {
      var i := IndexOf(articles, id);
      if i == -1 {
        return NotFound;
      }
      var a := Patch(articles[i], body.title, body.desc, body.content, now);
      if Valid() {
        ReplaceKeepsAllocation(articles, nextId, issued, i, a);
      }
      articles := articles[i := a];
      res := Ok(a);
    }

    /** deleteArticle: the first article with the ID is spliced out. */
    method Delete(id: int) returns (res: Outcome)
      modifies this
      ensures nextId == old(nextId) && issued == old(issued)
      ensures res.Deleted? || res.NotFound?
      ensures res.NotFound? <==> !HasId(old(articles), id)
      ensures res.NotFound? ==> articles == old(articles)
      ensures res.Deleted? ==> articles == RemoveAt(old(articles), FindIndex(old(articles), id))
      ensures old(Valid()) ==> Valid() && !HasId(articles, id)
      ensures old(AllFilled()) ==> AllFilled()
    {
      var i := IndexOf(articles, id);
      if i == -1 {
        return NotFound;
      }
      if Valid() {
        RemoveKeepsAllocation(articles, nextId, issued, i);
        RemoveAtIds(articles, i);
      }
      articles := RemoveAt(articles, i);
      res := Deleted;
    }
  }

  /** A first start with no usable file seeds and saves; a second start that
      loads what was saved comes up with the same articles and counter. */
  method RestartAfterSeed(now: Time, later: Time) returns (first: Snapshot, second: Snapshot)
    ensures first == second
    ensures second.articles == SeedArticles(now) && second.nextId == 4
  {
    var s1 := new Store();
    var written := s1.InitDatabase(None, now);
    var s2 := new Store();
    var _ := s2.InitDatabase(written, later);
    first, second := s1.Snap(), s2.Snap();
  }

  /** A restart that loads the file saved by a running store whose invariant
      held: the new store has the same articles and counter, and the invariant
      holds again, so its creates keep handing out unused IDs. */
  method RestartFromSave(running: Store, later: Time) returns (restarted: Store)
    requires running.Valid()
    ensures fresh(restarted)
    ensures restarted.Snap() == running.Snap() && restarted.issued == IdSet(running.articles)
    ensures restarted.Valid()
  {
    LiveIdsAllocation(running.articles, running.nextId, running.issued);
    restarted := new Store();
    var _ := restarted.InitDatabase(Some(running.Snap()), later);
  }

  /** Starting empty: create A, create B, delete 1, create C. The first two
      creates get IDs 1 and 2, the delete succeeds, the third create gets ID 3,
      not the freed 1, and the survivors B and C keep their order. */
  method NoReuseAfterDelete(now: Time) returns (first: Outcome, second: Outcome, removed: Outcome,
                                                third: Outcome, remaining: seq<Article>)
    ensures first.Ok? && first.article.id == 1
    ensures second.Ok? && second.article.id == 2 && second.article.title == "B"
    ensures removed == Deleted
    ensures third.Ok? && third.article.id == 3 && third.article.title == "C"
    ensures remaining == [second.article, third.article]
  {
    var store := new Store();
    first := store.Create(Article(0, "A", "d", "c", 0, 0), now);
    second := store.Create(Article(0, "B", "d", "c", 0, 0), now);
    FindUnique(store.articles, 0);
    removed := store.Delete(1);
    third := store.Create(Article(0, "C", "d", "c", 0, 0), now);
    remaining := store.articles;
  }
}
