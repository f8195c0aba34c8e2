# Astral stars store, modelled in Dafny

Astral is a web app for organising a user's starred GitHub repositories. Its
front end keeps the stars in a Vuex store module. That module merges the pages
of GitHub star edges with the tags and notes the Astral backend keeps for
them. This project models that module: its state, every mutation, the
`languages` and `currentStarIndex` getters, and what each action does once
the server has answered.

- `records.dfy` (`StarRecords`): the records. These are a repository node (relay
  `id`, optional primary language), a star (node,
  `tags`, `notes`), an annotation (`relay_id`, `tags`, `notes`), `pageInfo`, and the
  `currentStar` snapshot. The snapshot is the empty object, a copy of a star,
  or the bare `{ notes }` object that `SET_STAR_NOTES` leaves when nothing is
  selected.
- `getters.dfy` (`StarGetters`): the `languages` fold, written as the source's `map` / `filter` /
  `reduce` pipeline. It is proved equal to an independent count per language,
  with its key set equal to the set of languages present. This file also holds
  `currentStarIndex` (`findIndex` by id, with -1 as the "not found" value).
  When the snapshot is `{ notes }` and the collection is not empty, the
  `findIndex` callback reads `currentStar.node.id` and throws, and the model
  returns `NodeUndefined`. On an empty collection the callback never runs, and
  the result is -1.
- `updates.dfy` (`StarUpdates`): one pure function per collection mutation. Each says what the
  collection becomes. Lemmas show that pushing a tag is idempotent and keeps
  tag names unique, that the annotation overlay is idempotent and keeps an
  unannotated star as it was, and that appending pages loses nothing.
- `store.dfy` (`StarsStore`): the class `StarsState`, with one field per state entry, one method per
  mutation, and one method per action response handler. Each method's field-level
  `modifies` frame names exactly the fields it may change, so "nothing
  else changes" is part of every contract. Each method that loops over the stars
  (the source's `.map` run for its side effects) is proved to produce the
  matching function of `StarUpdates`.
- `properties.dfy` (`StarProperties`): lemmas that link the mutations to the getters, plus two
  worked scenarios: `Go, null, Go` gives `{Go: 2}`, and two pages of one Go star
  give two stars and `{Go: 2}`. A cleanup keeps the selected star's position. A
  client method checks that, with records as values, the snapshot is a copy.

Behaviour of the code that is easy to misread:

- `CLEAR_STARS` empties only `stars`. It leaves `pageInfo` and `totalStars` as they are.
- `editStarNotes` sets the notes only after the server has acknowledged them.
  It does not set them before the request.
- `SET_STAR_NOTES` writes the notes into `currentStar` whichever star is selected.
  When none is selected, it leaves `{ notes }`. From then on `currentStarIndex` throws
  whenever the collection is not empty.
- `PUSH_STAR_TAG`, `SET_STAR_TAGS` and `SET_STAR_NOTES` change every star with the id, not
  just the first one.
- `fetchGitHubStars` takes `totalCount` over when no cursor was passed. The model
  also counts the empty string as "no cursor", because `!cursor` is true for it.

## Model

| member | source | states |
|---|---|---|
| `StarGetters.LanguagesCorrect` | resources/assets/js/store/modules/stars.js:38-49 | the histogram maps each name to the number of stars with that primary language; a name is a key iff that count is positive; the key set is exactly the set of languages present |
| `StarGetters.TallyCounts` | resources/assets/js/store/modules/stars.js:45-48 | the `reduce` adds to each name's starting count the number of times that name occurs |
| `StarGetters.TallyKeys` | resources/assets/js/store/modules/stars.js:45-48 | the `reduce` adds exactly the names it sees to the keys |
| `StarGetters.LanguageNamesCount` | resources/assets/js/store/modules/stars.js:39-44 | the names left after the `map`/`filter`/`map` include `L` once per star whose primary language is `L`, so stars without a language contribute nothing |
| `StarGetters.LanguagesAppend` | resources/assets/js/store/modules/stars.js:38-49 | the histogram of `a + b` is the sum of the histograms of `a` and `b` |
| `StarGetters.LanguagesDependOnNodes` | resources/assets/js/store/modules/stars.js:38-49 | two collections with the same nodes in the same order have the same histogram, whatever their tags and notes |
| `StarGetters.FindIndex` | resources/assets/js/store/modules/stars.js:54-56 | the result is -1 iff no star has the id; otherwise it is a valid index whose star has the id, and no earlier star has it |
| `StarGetters.CurrentStarIndex` | resources/assets/js/store/modules/stars.js:52-60 | -1 when nothing is selected; for a selected star, the first position with its id, or -1 iff there is none; the getter throws exactly when the snapshot is `{ notes }` and the collection is non-empty, and gives -1 for `{ notes }` on an empty collection |
| `StarUpdates.Prepared` | resources/assets/js/store/modules/stars.js:153-157 | every edge becomes a star with the same node, no tags and empty notes, in the same order |
| `StarUpdates.AppendPagesKeepsAll` | resources/assets/js/store/modules/stars.js:66-68 | after any sequence of `SET_STARS` calls, the length is the old length plus the sum of the page lengths, and the old stars are an unchanged prefix |
| `StarUpdates.WithPushedTag` | resources/assets/js/store/modules/stars.js:81-93 | length, order, ids, nodes and notes are kept; stars with another id are unchanged; a matching star that has a tag of that name is unchanged; any other matching star gets its old tags followed by the new tag |
| `StarUpdates.PushTagIdempotent` | resources/assets/js/store/modules/stars.js:81-93 | pushing the same tag twice gives the same collection as pushing it once |
| `StarUpdates.PushTagKeepsNamesUnique` | resources/assets/js/store/modules/stars.js:83-87 | if every star's tag names were unique, they stay unique |
| `StarUpdates.WithTags` | resources/assets/js/store/modules/stars.js:94-101 | every star with the id carries exactly the given tags; every other star's tags, and every star's node and notes, are as before; ids and order are kept |
| `StarUpdates.FindUserStar` | resources/assets/js/store/modules/stars.js:108 | returns nothing iff no annotation has the id; otherwise it returns the first annotation with that id |
| `StarUpdates.WithUserStars` | resources/assets/js/store/modules/stars.js:105-121 | length, order, ids and nodes are kept; with no matching annotation a star is unchanged; otherwise its tags become the first match's tags only when those are non-empty, and its notes the first match's notes only when those are non-empty |
| `StarUpdates.OverlayWithoutAnnotation` | resources/assets/js/store/modules/stars.js:109-119 | a star with no matching annotation, or whose first match has empty tags and empty notes, is left unchanged |
| `StarUpdates.OverlayIdempotent` | resources/assets/js/store/modules/stars.js:105-121 | overlaying the same annotations twice gives the same collection as overlaying them once |
| `StarUpdates.WithNotes` | resources/assets/js/store/modules/stars.js:131-138 | every star with the id has the new notes; every other star's notes, and every star's node and tags, are as before; ids and order are kept |
| `StarUpdates.SnapshotWithNotes` | resources/assets/js/store/modules/stars.js:139 | a selected star keeps its node and tags and takes the new notes, whichever star it is; otherwise (`{}` or `{ notes }`) the snapshot becomes `{ notes }` |
| `StarsStore.StarsState.constructor` | resources/assets/js/store/modules/stars.js:23-32 | the initial state: no annotations, no stars, empty page info, total 0, no language, empty snapshot, no readme, not viewing untagged |
| `StarsStore.StarsState.SetStars` | resources/assets/js/store/modules/stars.js:66-68 | `stars` becomes the old stars followed by the page; no other field changes |
| `StarsStore.StarsState.ClearStars` | resources/assets/js/store/modules/stars.js:69-71 | `stars` becomes empty; no other field changes, including `pageInfo` and `totalStars` |
| `StarsStore.StarsState.SetTotalStars` | resources/assets/js/store/modules/stars.js:72-74 | only `totalStars` changes, to the given value |
| `StarsStore.StarsState.SetStarsPageInfo` | resources/assets/js/store/modules/stars.js:75-77 | only `pageInfo` changes, to the given value |
| `StarsStore.StarsState.SetCurrentLanguage` | resources/assets/js/store/modules/stars.js:78-80 | only `currentLanguage` changes, to the given value |
| `StarsStore.StarsState.PushStarTag` | resources/assets/js/store/modules/stars.js:81-93 | the loop turns `stars` into `WithPushedTag` of the old stars; no other field changes |
| `StarsStore.StarsState.SetStarTags` | resources/assets/js/store/modules/stars.js:94-101 | the loop turns `stars` into `WithTags` of the old stars; no other field changes |
| `StarsStore.StarsState.SetUserStars` | resources/assets/js/store/modules/stars.js:102-104 | only `userStars` changes, to the given annotations |
| `StarsStore.StarsState.MapUserStarsToGitHubStars` | resources/assets/js/store/modules/stars.js:105-121 | the loop turns `stars` into `WithUserStars` of the old stars and the current annotations; no other field changes |
| `StarsStore.StarsState.SetCurrentStar` | resources/assets/js/store/modules/stars.js:122-124 | only the snapshot changes, to a copy of the object passed: a star, or `{}`, which brings back the empty selection |
| `StarsStore.StarsState.SetReadme` | resources/assets/js/store/modules/stars.js:125-127 | only `readme` changes |
| `StarsStore.StarsState.SetViewingUntagged` | resources/assets/js/store/modules/stars.js:128-130 | only `viewingUntagged` changes |
| `StarsStore.StarsState.SetStarNotes` | resources/assets/js/store/modules/stars.js:131-140 | the loop turns `stars` into `WithNotes` of the old stars, and the snapshot becomes `SnapshotWithNotes` of the old snapshot; no other field changes |
| `StarsStore.StarsState.SetTags` | resources/assets/js/store/modules/stars.js:187 | only the tag list changes, to the server's list (the `SET_TAGS` commit) |
| `StarsStore.StarsState.SetCurrentTag` | resources/assets/js/store/modules/stars.js:210 | only the selected tag changes (the `SET_CURRENT_TAG` commit) |
| `StarsStore.StarsState.OnGitHubStarsPage` | resources/assets/js/store/modules/stars.js:150-165 | `stars` is the overlay of the old stars followed by the prepared edges; `pageInfo` is the response's; `totalStars` takes `totalCount` iff there was no cursor, and otherwise is unchanged; nothing else changes |
| `StarsStore.StarsState.OnUserStars` | resources/assets/js/store/modules/stars.js:171-173 | only `userStars` changes, to the response |
| `StarsStore.StarsState.OnStarTagPushed` | resources/assets/js/store/modules/stars.js:186-188 | the acknowledgment replaces only the global tag list; no star's tags change |
| `StarsStore.StarsState.OnStarTagsSynced` | resources/assets/js/store/modules/stars.js:221-227 | the tag list becomes `res.tags`, and the stars with the id take the server's `res.star.tags`; nothing else changes |
| `StarsStore.StarsState.OnStarNotesSaved` | resources/assets/js/store/modules/stars.js:236-241 | after the acknowledgment, the stars with the id and the snapshot take the notes; nothing else changes |
| `StarsStore.StarsState.OnStarsCleanedUp` | resources/assets/js/store/modules/stars.js:247-250 | `userStars` becomes the remaining annotations, and `stars` becomes their overlay on the old stars, with the same stars in the same order |
| `StarsStore.StarsState.ViewUntagged` | resources/assets/js/store/modules/stars.js:208-213 | `viewingUntagged` takes the value; the selected tag is cleared iff viewing is true; nothing else changes |
| `StarProperties.OverlayKeepsLanguages` | resources/assets/js/store/modules/stars.js:105-121 | the overlay does not change the language histogram |
| `StarProperties.PageAddsLanguageCounts` | resources/assets/js/store/modules/stars.js:150-165 | after a page is handled, each language's count is its old count plus the number of new edges with that language |
| `StarProperties.FindIndexSeesIds` | resources/assets/js/store/modules/stars.js:54-56 | `findIndex` by id gives the same result on two collections with the same ids |
| `StarProperties.SameIdsSameIndex` | resources/assets/js/store/modules/stars.js:52-60 | for the same snapshot, a collection change that keeps the ids (push tag, set tags, overlay) keeps `currentStarIndex`; set notes also rewrites the snapshot and is covered by `NotesKeepSelectedIndex` |
| `StarProperties.CleanupKeepsIndex` | resources/assets/js/store/modules/stars.js:247-250 | after a cleanup, `currentStarIndex` is what it was |
| `StarProperties.NotesWithoutSelection` | resources/assets/js/store/modules/stars.js:139 | setting notes with nothing selected makes `currentStarIndex` throw when the collection is non-empty |
| `StarProperties.NotesKeepSelectedIndex` | resources/assets/js/store/modules/stars.js:131-140 | with a star selected, setting notes keeps `currentStarIndex` |
| `StarProperties.NotesWithoutStars` | resources/assets/js/store/modules/stars.js:52-56 | setting notes with nothing selected and no stars leaves `currentStarIndex` at -1, because `findIndex` never runs its callback |
| `StarProperties.SyncOverridesPush` | resources/assets/js/store/modules/stars.js:221-227 | the server's tags replace an earlier optimistic push: a push and then a sync give the same collection as the sync alone |
| `StarProperties.GoNullGo` | resources/assets/js/store/modules/stars.js:38-49 | the languages `Go, null, Go` give exactly `{Go: 2}` |
| `StarProperties.TwoGoPages` | resources/assets/js/store/modules/stars.js:66-68 | two pages of one Go star each give two stars and exactly `{Go: 2}` |

## Left out

- HTTP transport and authentication are left out: `client.withAuth()` / `withoutAuth()`, the URL
  and query string built with `qs.stringify`, and the requests in `pushStarTag`,
  `syncStarTags`, `editStarNotes`, `cleanupStars`, `fetchUserStars` and
  `fetchReadme`. These are I/O through a client that is not part of this model.
  Only the response handlers are modelled, with each response as a parameter.
- `fetchReadme` is left out except for the `SET_README` commit. Its URL, access token and
  `Accept` header belong to the transport.
- Promises, their timing and the interleaving of requests in flight are left out. The
  source has no ordering guard, no cancellation and no rollback, so the model has none either.
- The action wrappers `setCurrentLanguage`, `setCurrentStar` and the synchronous part of
  `pushStarTag` have no methods of their own. Each is a single commit, which is
  the corresponding mutation method.
- The getters `stars`, `pageInfo`, `totalStars`, `currentLanguage`, `currentStar`, `readme` and
  `viewingUntagged` are not modelled. Each reads a field. The class fields take
  their place.
- `SET_TAGS` and `SET_CURRENT_TAG` belong to the tags module, which is not part of this model.
  Each is modelled as one field being set. Both fields start empty.
- JavaScript reference aliasing is not modelled. Records are values. In the source,
  `SET_CURRENT_STAR` makes a shallow copy, so the snapshot shares the `tags`
  array with the star in the collection, and `star.tags.push(tag)` is visible
  through both. The model treats the snapshot as an independent copy.
  `star.tags = userStar.tags` also makes a star and its annotation share one
  array, so a later push reaches the annotation too. In the model, re-running
  the overlay after a push gives the star the annotation's tags again, and the
  source may not do this.
- `StarGetters.Languages` returns an unordered `map`. The object the `reduce` builds keeps its keys
  in insertion order: integer-like names first, then the others by first appearance. A consumer
  that iterates the histogram sees that order, and the model does not capture it.
- `StarGetters.Languages` does not model names that clash with `Object.prototype` properties,
  such as `constructor`. For those, `prev[cur] || 0` reads an inherited property
  rather than 0.
- `StarsStore.GitHubStarsPage` always carries an integer `totalCount`. A response without one
  sets `totalStars` to `undefined` in the source.
- `StarRecords.UserStar` notes are strings. A null `notes` from the backend behaves like the
  empty string, because both are falsy.
- Node and edge fields other than the relay id and the primary language are left out.
  No code in this module reads them.
