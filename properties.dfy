/** Properties that relate the store's mutations to its getters, and two
    worked scenarios. */
module StarProperties {
  import opened StarRecords
  import opened StarGetters
  import opened StarUpdates
  import opened StarsStore

  /** The overlay touches tags and notes only, so the histogram stays. */
  lemma OverlayKeepsLanguages(stars: seq<Star>, userStars: seq<UserStar>)
    ensures Languages(WithUserStars(stars, userStars)) == Languages(stars)
  {
    LanguagesDependOnNodes(WithUserStars(stars, userStars), stars);
  }

  /** After a page has been handled, each language counts what it counted
      before plus the page's edges with that language. */
  lemma PageAddsLanguageCounts(stars: seq<Star>, edges: seq<Edge>, userStars: seq<UserStar>, name: string)
    ensures Get(Languages(WithUserStars(stars + Prepared(edges), userStars)), name)
         == Get(Languages(stars), name) + CountLanguage(Prepared(edges), name)
  {
    OverlayKeepsLanguages(stars + Prepared(edges), userStars);
    LanguagesAppend(stars, Prepared(edges), name);
    LanguagesCorrect(Prepared(edges), name);
  }

  /** `findIndex` by id sees only the ids. */
  lemma {:induction false} FindIndexSeesIds(a: seq<Star>, b: seq<Star>, id: string)
    requires Ids(a) == Ids(b)
    ensures FindIndex(a, id) == FindIndex(b, id)
  {
    assert |a| == |Ids(a)| == |Ids(b)| == |b|;
    if a != [] {
      assert a[0].node.id == Ids(a)[0] == Ids(b)[0] == b[0].node.id;
      assert Ids(a[1..]) == Ids(a)[1..];
      assert Ids(b[1..]) == Ids(b)[1..];
      FindIndexSeesIds(a[1..], b[1..], id);
    }
  }

  /** A mutation that keeps the ids keeps the selected star's position;
      every mutation of the collection except `SET_STARS` and `CLEAR_STARS`
      is one. */
  lemma SameIdsSameIndex(a: seq<Star>, b: seq<Star>, current: Snapshot)
    requires Ids(a) == Ids(b)
    ensures CurrentStarIndex(a, current) == CurrentStarIndex(b, current)
  {
    if current.Copy? {
      FindIndexSeesIds(a, b, current.star.node.id);
    }
  }

  /** After a cleanup the selected star keeps its position: the cleanup
      changes annotations, never which stars the collection holds. */
  lemma CleanupKeepsIndex(stars: seq<Star>, remaining: seq<UserStar>, current: Snapshot)
    ensures CurrentStarIndex(WithUserStars(stars, remaining), current) == CurrentStarIndex(stars, current)
  {
  }

  /** Setting notes while no star is selected leaves the snapshot `{ notes }`,
      on which the `currentStarIndex` getter throws once there is a star. */
  lemma NotesWithoutSelection(stars: seq<Star>, id: string, notes: string)
    requires stars != []
    ensures CurrentStarIndex(WithNotes(stars, id, notes), SnapshotWithNotes(NoStar, notes)) == NodeUndefined
  {
  }

  /** With a star selected, setting notes keeps the selected star's position:
      the collection keeps its ids and the snapshot its node. */
  lemma NotesKeepSelectedIndex(stars: seq<Star>, id: string, notes: string, current: Snapshot)
    requires current.Copy?
    ensures CurrentStarIndex(WithNotes(stars, id, notes), SnapshotWithNotes(current, notes))
         == CurrentStarIndex(stars, current)
  {
    FindIndexSeesIds(WithNotes(stars, id, notes), stars, current.star.node.id);
  }

  /** Setting notes with nothing selected and no stars leaves the index at -1. */
  lemma NotesWithoutStars(id: string, notes: string)
    ensures CurrentStarIndex(WithNotes([], id, notes), SnapshotWithNotes(NoStar, notes)) == Index(-1)
  {
  }

  /** The server's tags replace whatever was pushed onto the star before. */
  lemma SyncOverridesPush(stars: seq<Star>, starId: string, tag: Tag, serverTags: seq<Tag>)
    ensures WithTags(WithPushedTag(stars, starId, tag), starId, serverTags) == WithTags(stars, starId, serverTags)
  {
  }

  function GoRepo(id: string): Star
  {
    Star(Node(id, Some(Language("Go"))), [], "")
  }

  /** The languages `Go, null, Go` give `{Go: 2}`. */
  lemma GoNullGo()
    ensures Languages([GoRepo("1"), Star(Node("2", None), [], ""), GoRepo("3")]) == map["Go" := 2]
  {
  }

  /** Two pages of one Go star each give two stars and `{Go: 2}`. */
  lemma TwoGoPages()
    ensures |AppendPages([], [[GoRepo("1")], [GoRepo("2")]])| == 2
    ensures Languages(AppendPages([], [[GoRepo("1")], [GoRepo("2")]])) == map["Go" := 2]
  {
  }

  /** A client of the store. In this model, where records are values, the
      snapshot taken by `SET_CURRENT_STAR` keeps its tags when the star in the
      collection gets a new one (in the source the shallow copy shares the
      `tags` array). Clearing the collection leaves the pagination state
      alone, a page after a first page keeps the total of the first, and
      passing `{}` to `SET_CURRENT_STAR` brings back the empty selection. */
  method SnapshotAndClear(edge: Edge, tag: Tag, info: PageInfo, later: PageInfo)
  {
    var s := new StarsState();
    s.OnGitHubStarsPage(None, GitHubStarsPage([edge], info, 1));
    assert |s.stars| == 1 && s.stars[0].tags == [] && s.totalStars == 1;
    s.SetCurrentStar(Copy(s.stars[0]));
    s.PushStarTag(edge.node.id, tag);
    assert s.stars[0].tags == [tag];
    assert s.currentStar.star.tags == [];
    s.OnGitHubStarsPage(Some("cursor"), GitHubStarsPage([edge], later, 7));
    assert |s.stars| == 2 && s.totalStars == 1 && s.pageInfo == later;
    s.ClearStars();
    assert s.stars == [] && s.pageInfo == later && s.totalStars == 1;
    assert s.currentStar.Copy?;
    s.SetCurrentStar(NoStar);
    assert CurrentStarIndex(s.stars, s.currentStar) == Index(-1);
  }
}
