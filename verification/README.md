# Article store, modelled in Dafny

This project models the in-memory article store of go-spring, a small CRUD
service for "article" records (ID, title, description, content, created and
updated timestamps). The store appears twice in the repository:

- `main.go` keeps it in the package globals `articles` and `nextID`. The HTTP
  handlers for get, create, update and delete change those globals. At
  startup `initDatabase` either loads a saved snapshot or seeds three sample
  articles.
- `temp/demo.go` keeps the same globals and works on them through plain
  functions. Its `main` runs a fixed script.

Files:

- `articles.dfy` (module `Articles`) holds what both stores share:
  - the `Article` record;
  - the scan by ID (`FindIndex` states it, `IndexOf` is the loop);
  - the splice that deletes (`RemoveAt`);
  - the field overwrite that updates (`Patch`);
  - the ID-allocation invariant `Allocation` and the lemmas showing that
    append, overwrite and splice preserve it.
- `server.dfy` (module `Server`) models `main.go`. A `Store` class holds the
  globals as the fields `articles: seq<Article>` and `nextId: int`. Each
  handler is reduced to its effect on those fields plus an `Outcome`:
  `Ok`, `Deleted`, `ValidationError` or `NotFound`.
- `demo.dfy` (module `Demo`) models `temp/demo.go` with its own `Store`
  class, plus the scripted run as `RunDemo`.

Both classes carry a ghost field `issued`. It holds every ID the store has
handed out since it started or was seeded. After a load from the saved file it
holds the IDs of the loaded articles, because the file records only the live
articles and the counter. The invariant `Valid()` says three things:

- live IDs are pairwise distinct;
- every live ID is in `issued`;
- every issued ID is below `nextId`.

No operation requires `Valid()`, because the source checks nothing of the
kind. Instead create, update and delete each ensure
`old(Valid()) ==> Valid()`. When `Valid()` held before a create, the create also
ensures that its new ID was not in `issued`, so IDs are never reused, even
after a delete. A loaded snapshot whose counter is not above its IDs breaks
`Valid()`, and then a create makes no promise that its ID is new. Seeding establishes
`Valid()`. A load establishes it only when the loaded snapshot has distinct IDs
below its counter, since the source does not check that. `RestartFromSave`
shows that a file saved from a valid store is such a snapshot.

The update rule itself is the function `Articles.Patch`; `PatchKeeps` states
what it does field by field. The demo's `getAllArticles` is
`Demo.Store.GetAllArticles`, which returns the collection in insertion order.

Every clock reading is a `Time` parameter supplied by the caller. Outside
this model, it comes from `time.Now()`.

## Model

| member | source | states |
|---|---|---|
| `Articles.FindIndex` | main.go:168-179 | The scan stops at the first article whose ID matches. The result is -1 exactly when no article has the ID; otherwise it is an index holding the ID with no match before it. |
| `Articles.IndexOf` | temp/demo.go:48-55 | The range loop returns the position that `FindIndex` specifies: the first match, or -1. |
| `Articles.FindUnique` | main.go:168-169 | When IDs are unique, scanning for an article's ID finds that article's own position. |
| `Articles.RemoveAt` | main.go:298 | The splice `append(articles[:i], articles[i+1:]...)` drops exactly one element. Length shrinks by one, elements before `i` stay put, later ones shift down by one in order, and the multiset loses only the removed record. |
| `Articles.RemoveAtIds` | temp/demo.go:82-86 | With unique IDs, removing position `i` keeps the IDs unique and removes exactly that ID from the ID set. No article with that ID remains. |
| `Articles.PatchKeeps` | main.go:250-259 | An update keeps ID and Created and sets Updated to the clock. A non-empty title, desc or content replaces the stored one; an empty one leaves it unchanged. |
| `Articles.PatchTwice` | temp/demo.go:62-71 | Two updates in a row equal one update. For each field it uses the later non-empty value, else the earlier one, with the later clock. |
| `Articles.PatchIdempotent` | main.go:250-259 | Repeating the same update changes nothing except Updated. |
| `Articles.AllocationBelow` | main.go:202-203 | Under the invariant every live ID is below `nextID`. |
| `Articles.LiveIdsAllocation` | main.go:92-98 | A collection that satisfies the invariant still satisfies it when only its live IDs count as handed out, which is all a saved file records. |
| `Articles.AppendKeepsAllocation` | main.go:202-208 | Appending a record with ID `nextID` and bumping `nextID` keeps the invariant. The new ID was never handed out before. |
| `Articles.ReplaceKeepsAllocation` | main.go:247-259 | Overwriting one element with a record that keeps its ID keeps the invariant. |
| `Articles.RemoveKeepsAllocation` | main.go:295-298 | Splicing one element out keeps the invariant with `nextID` unchanged. |
| `Server.SeedArticles` | main.go:108-133 | The seed has IDs 1, 2, 3, which are distinct. Every seed article has non-empty texts, Created equal to Updated and before startup, and the articles are oldest first. |
| `Server.Store.constructor` | main.go:33-34 | The store starts with no articles and `nextID = 1`, and the invariant holds. |
| `Server.Store.CreateSampleData` | main.go:104-137 | Both globals are replaced: the articles by the seed and `nextID` by 4. The invariant holds, and every article has all three texts. |
| `Server.Store.Load` | main.go:68-73 | A decoded snapshot replaces both the articles and `nextID`. The ID invariant is not re-checked. |
| `Server.Store.InitDatabase` | main.go:39-48 | If the load succeeds, its snapshot becomes the state, `issued` becomes the loaded IDs, and nothing is saved. If it fails, the store holds exactly the seed with `nextID = 4` and issued IDs {1, 2, 3}, the invariant holds, and the saved snapshot is that state. |
| `Server.Store.Get` | main.go:165-179 | Returns not-found exactly when no article has the ID. Otherwise it returns the first article with that ID. It never changes the store. |
| `Server.Store.Create` | main.go:192-208 | Rejected exactly when title, desc or content is empty, and then nothing changes. Otherwise: the stored record is the request body with ID = old `nextID` and both timestamps = now, so any client-supplied ID is overwritten. It is appended after the unchanged earlier articles, `nextID` grows by exactly one, and the ID is new. The invariant is preserved, and so is "every article has all three texts". |
| `Server.Store.Update` | main.go:243-277 | Not-found exactly when the ID is absent, and then nothing changes. Otherwise only the first matching element changes: it becomes `Patch` of itself, keeping ID and Created, with Updated = now. The length, every other article and `nextID` are unchanged. The invariant and "all texts filled" are preserved. |
| `Server.Store.Delete` | main.go:291-315 | Not-found exactly when the ID is absent, and then nothing changes. Otherwise the first match is spliced out and the survivors keep their order, with `nextID` unchanged. Under the invariant, no article with that ID remains, so a later `Get` is not-found. |
| `Server.RestartAfterSeed` | main.go:39-48 | A first start without a usable file seeds and saves. A second start that loads what was saved comes up with the same seed articles and `nextID = 4`. |
| `Server.RestartFromSave` | main.go:68-73 | Loading the snapshot saved by a store whose invariant held gives a new store with the same articles and counter. Its issued IDs are the loaded live IDs, and the invariant holds again. |
| `Server.NoReuseAfterDelete` | main.go:201-208 | Starting empty: create A, create B, delete 1, create C. The creates get IDs 1, 2 and 3, so the freed 1 is not reused. The delete reports `Deleted`, and the survivors are exactly the B and C records, in that order. |
| `Demo.Store.constructor` | temp/demo.go:19-20 | The store starts with no articles and `nextID = 1`, and the invariant holds. |
| `Demo.Store.CreateArticle` | temp/demo.go:25-38 | There is no validation. The returned record has ID = old `nextID` and the given texts, with both timestamps = now. It is appended at the end, and `nextID` grows by one. The ID is new, and the invariant is preserved. |
| `Demo.Store.GetArticleById` | temp/demo.go:47-56 | Returns nothing exactly when no article has the ID. Otherwise it returns a copy of the first match. The store is unchanged. |
| `Demo.Store.UpdateArticle` | temp/demo.go:59-78 | Returns nothing exactly when the ID is absent, and then nothing changes. Otherwise the first match becomes `Patch` of itself: non-empty arguments only, ID and Created kept, Updated = now. The updated record is returned. Other articles, the length and `nextID` are unchanged. |
| `Demo.Store.DeleteArticle` | temp/demo.go:81-91 | Returns true exactly when the ID is present. Then the first match is spliced out and the rest keep their order; otherwise nothing changes. `nextID` never changes, and under the invariant the ID is gone afterwards. |
| `Demo.RunDemo` | temp/demo.go:109-166 | Each create and the update take their own clock reading. The scripted run reads back article 2 as created. The delete of 3 succeeds, and the final IDs are [1, 2, 4]. Article 1 has the new title and content, keeps its original description and Created, and carries the update's clock. Articles 2 and 4 are as created. |

## Left out

- HTTP routing, `mux.Vars`, `strconv.Atoi` of the path ID and its bad-request reply, JSON decoding and encoding, and the `Response` envelope with its status codes are transport plumbing. A handler's result is reduced to an `Outcome`, and `Create`/`Update` receive the decoded body as an `Article`.
- `getAllArticles` in `main.go` only encodes the globals as JSON.
- The gob codec and the file operations (`os.Open`, `os.Create`) are not modelled. `saveArticles` is represented by the snapshot value `Snap()` it would write. A load is represented by the snapshot it decoded, or by `None` when opening or decoding failed. There is no byte-level encode/decode round trip.
- `sync.RWMutex` and the `go func(){ saveArticles() }()` background saves after each mutation are not modelled. Their point is concurrency and the order in which saves finish, which a sequential model cannot express. Each operation here is one atomic step.
- `time.Now()` is a parameter. `Server.Store.Create` and `Demo.Store.CreateArticle` take one clock reading for both Created and Updated; the source calls `time.Now()` twice, so the two can differ by nanoseconds. The seed's three articles are stamped from one reading.
- Console printing in both files is not modelled.
- `Server.Store.Create` and `Demo.Store.CreateArticle`: `nextId` is an unbounded integer. A 64-bit Go `int` would wrap after 9223372036854775807 (a 32-bit one after 2147483647), which takes that many creates or a loaded snapshot carrying such a counter.
- `Demo.Store.UpdateArticle` returns the updated record as a value. The source returns `&articles[i]`, a pointer into the slice, and later changes to the slice can show through that pointer. Aliasing is not modelled.
- The slice splice in `deleteArticle` reuses the backing array of the old slice. Only the resulting sequence is modelled.
- `test-api.go` is a network client with no store logic.
