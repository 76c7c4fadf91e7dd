/** The console demo (temp/demo.go): the same collection and counter as package
    globals, driven by plain functions without validation, and the scripted
    run of its main. Printing is not part of this model. */
module Demo {
  import opened Articles

  class Store {
    var articles: seq<Article>
    var nextId: int
    /** Every ID this store has handed out. */
    ghost var issued: set<int>

    ghost predicate Valid()
      reads this
    {
      Allocation(articles, nextId, issued)
    }

    /** The globals at program start: no articles, `nextID = 1`. */
    constructor ()
      ensures articles == [] && nextId == 1 && issued == {} && Valid()
    {
      articles, nextId := [], 1;
      issued := {};
    }

    /** createArticle: no validation; the counter's value becomes the ID, the
        counter is bumped and the record is appended. */
    method CreateArticle(title: string, desc: string, content: string, now: Time) returns (a: Article)
      modifies this
      ensures a == Article(old(nextId), title, desc, content, now, now)
      ensures articles == old(articles) + [a]
      ensures nextId == old(nextId) + 1 && issued == old(issued) + {a.id}
      ensures old(Valid()) ==> Valid() && a.id !in old(issued)
    {
      a := Article(nextId, title, desc, content, now, now);
      if Valid() {
        AppendKeepsAllocation(articles, nextId, issued, a);
      }
      nextId := nextId + 1;
      articles := articles + [a];
      issued := issued + {a.id};
    }

    /** getAllArticles: the live collection in insertion order. */
    function GetAllArticles(): seq<Article>
      reads this
    {
      articles
    }

    /** getArticleByID: a copy of the first article with the ID, or None. */
    method GetArticleById(id: int) returns (r: Option<Article>)
      ensures r.None? <==> !HasId(articles, id)
      ensures r.Some? ==> r.value.id == id && r.value == articles[FindIndex(articles, id)]
    {
      var i := IndexOf(articles, id);
      if i == -1 {
        r := None;
      } else {
        r := Some(articles[i]);
      }
    }

    /** updateArticle: the first article with the ID gets the non-empty
        arguments and a fresh Updated; the updated record is returned, or None
        when no article has the ID. */
    method UpdateArticle(id: int, title: string, desc: string, content: string, now: Time)
      returns (r: Option<Article>)
      modifies this
      ensures nextId == old(nextId) && issued == old(issued)
      ensures r.None? <==> !HasId(old(articles), id)
      ensures r.None? ==> articles == old(articles)
      ensures r.Some? ==>
        var i := FindIndex(old(articles), id);
        && r.value == Patch(old(articles)[i], title, desc, content, now)
        && articles == old(articles)[i := r.value]
        && r.value.id == id && r.value.created == old(articles)[i].created
        && r.value.updated == now
      ensures old(Valid()) ==> Valid()
    {
      var i := IndexOf(articles, id);
      if i == -1 {
        return None;
      }
      var a := Patch(articles[i], title, desc, content, now);
      if Valid() {
        ReplaceKeepsAllocation(articles, nextId, issued, i, a);
      }
      articles := articles[i := a];
      r := Some(a);
    }

    /** deleteArticle: the first article with the ID is spliced out; the result
        says whether one was. */
    method DeleteArticle(id: int) returns (ok: bool)
      modifies this
      ensures nextId == old(nextId) && issued == old(issued)
      ensures ok <==> HasId(old(articles), id)
      ensures !ok ==> articles == old(articles)
      ensures ok ==> articles == RemoveAt(old(articles), FindIndex(old(articles), id))
      ensures old(Valid()) ==> Valid() && !HasId(articles, id)
    {
      var i := IndexOf(articles, id);
      if i == -1 {
        return false;
      }
      if Valid() {
        RemoveKeepsAllocation(articles, nextId, issued, i);
        RemoveAtIds(articles, i);
      }
      articles := RemoveAt(articles, i);
      ok := true;
    }
  }

  // The texts the scripted main passes in.
  const IntroTitle := "Introduction to Go"
  const IntroDesc := "Learn the basics of Go programming language"
  const IntroContent := "Go is a statically typed, compiled programming language designed at Google."
  const RestTitle := "Building REST APIs"
  const RestDesc := "A guide to creating REST APIs in Go"
  const RestContent := "REST APIs are fundamental in modern web development. Go provides excellent support for building web services."
  const DbTitle := "Database Integration"
  const DbDesc := "How to connect Go applications with databases"
  const DbContent := "Go supports various databases including MongoDB, PostgreSQL, MySQL, and more."
  const AdvTitle := "Advanced Go Concepts"
  const AdvDesc := "Exploring advanced features of Go"
  const AdvContent := "This article covers goroutines, channels, interfaces, and more advanced Go concepts."
  const IntroTitleRevised := "Introduction to Go Programming"
  const IntroContentRevised := "Go (also known as Golang) is a modern programming language that makes it easy to build simple, reliable, and efficient software."

  /** The scripted main: three creates, a read of article 2, a fourth create,
      an update of article 1 that leaves its description empty, and a delete
      of article 3. `c1` to `c4` are the clock readings of the four creates,
      `u` that of the update. */
  method RunDemo(c1: Time, c2: Time, c3: Time, c4: Time, u: Time)
    returns (found: Option<Article>, deleted: bool, remaining: seq<Article>)
    ensures found == Some(Article(2, RestTitle, RestDesc, RestContent, c2, c2))
    ensures deleted
    ensures Ids(remaining) == [1, 2, 4]
    ensures remaining[0] == Article(1, IntroTitleRevised, IntroDesc, IntroContentRevised, c1, u)
    ensures remaining[1] == found.value
    ensures remaining[2] == Article(4, AdvTitle, AdvDesc, AdvContent, c4, c4)
  {
    var store := new Store();
    var _ := store.CreateArticle(IntroTitle, IntroDesc, IntroContent, c1);
    var _ := store.CreateArticle(RestTitle, RestDesc, RestContent, c2);
    var _ := store.CreateArticle(DbTitle, DbDesc, DbContent, c3);
    FindUnique(store.articles, 1);
    found := store.GetArticleById(2);
    var _ := store.CreateArticle(AdvTitle, AdvDesc, AdvContent, c4);
    FindUnique(store.articles, 0);
    var _ := store.UpdateArticle(1, IntroTitleRevised, "", IntroContentRevised, u);
    FindUnique(store.articles, 2);
    deleted := store.DeleteArticle(3);
    remaining := store.GetAllArticles();
  }
}
