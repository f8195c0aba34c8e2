/** The stars store module: its state, its mutations, and the part of each
    action that runs once the server has answered. */
module StarsStore {
  import opened StarRecords
  import opened StarUpdates

  /** The body of a `GET /api/stars/github` response. */
  datatype GitHubStarsPage = GitHubStarsPage(edges: seq<Edge>, pageInfo: PageInfo, totalCount: int)

  /** The body of a `PUT /api/star/tags` response: the user's whole tag list
      (`res.tags`) and the tags the server now holds for the star
      (`res.star.tags`). */
  datatype SyncedTags = SyncedTags(tags: seq<Tag>, starTags: seq<Tag>)

  /** `!cursor`: no cursor was passed, or the empty string was. */
  predicate NoCursor(cursor: Option<string>)
  {
    cursor.None? || cursor.value == ""
  }

  class StarsState {
    var userStars: seq<UserStar>
    var stars: seq<Star>
    var pageInfo: PageInfo
    var totalStars: int
    var currentLanguage: string
    var currentStar: Snapshot
    var readme: string
    var viewingUntagged: bool
    // The tags module's tag list and selected tag, which the actions of this
    // module commit to; `currentTag == None` is its empty object.
    var tags: seq<Tag>
    var currentTag: Option<Tag>

    constructor ()
      ensures userStars == [] && stars == [] && pageInfo == NoPageInfo && totalStars == 0
      ensures currentLanguage == "" && currentStar == NoStar && readme == "" && !viewingUntagged
      ensures tags == [] && currentTag == None
    {
      userStars, stars, pageInfo, totalStars := [], [], NoPageInfo, 0;
      currentLanguage, currentStar, readme, viewingUntagged := "", NoStar, "", false;
      tags, currentTag := [], None;
    }

    /** `SET_STARS`: the page goes after the stars already held. */
    method SetStars(edges: seq<Star>)
      modifies this`stars
      ensures stars == old(stars) + edges
    {
      stars := stars + edges;
    }

    /** `CLEAR_STARS`: only the collection is emptied; `pageInfo` and
        `totalStars` keep their values. */
    method ClearStars()
      modifies this`stars
      ensures stars == []
    {
      stars := [];
    }

    method SetTotalStars(total: int)
      modifies this`totalStars
      ensures totalStars == total
    {
      totalStars := total;
    }

    method SetStarsPageInfo(info: PageInfo)
      modifies this`pageInfo
      ensures pageInfo == info
    {
      pageInfo := info;
    }

    method SetCurrentLanguage(language: string)
      modifies this`currentLanguage
      ensures currentLanguage == language
    {
      currentLanguage := language;
    }

    /** `PUSH_STAR_TAG`: every star with the id that has no tag of that name
        gets the tag at the end of its list. */
    method PushStarTag(starId: string, tag: Tag)
      modifies this`stars
      ensures stars == WithPushedTag(old(stars), starId, tag)
    {
      var i := 0;
      while i < |stars|
        invariant 0 <= i <= |stars| == |old(stars)|
        invariant forall k :: 0 <= k < i ==> stars[k] == PushTagOnto(old(stars)[k], starId, tag)
        invariant forall k :: i <= k < |stars| ==> stars[k] == old(stars)[k]
      {
        var star := stars[i];
        if star.node.id == starId && tag.name !in TagNames(star.tags) {
          stars := stars[i := star.(tags := star.tags + [tag])];
        }
        i := i + 1;
      }
    }

    /** `SET_STAR_TAGS`: every star with the id carries a copy of `tags`. */
    method SetStarTags(starId: string, newTags: seq<Tag>)
      modifies this`stars
      ensures stars == WithTags(old(stars), starId, newTags)
    {
      var i := 0;
      while i < |stars|
        invariant 0 <= i <= |stars| == |old(stars)|
        invariant forall k :: 0 <= k < i ==> stars[k] == ReplaceTags(old(stars)[k], starId, newTags)
        invariant forall k :: i <= k < |stars| ==> stars[k] == old(stars)[k]
      {
        if stars[i].node.id == starId {
          stars := stars[i := stars[i].(tags := newTags)];
        }
        i := i + 1;
      }
    }

    method SetUserStars(annotations: seq<UserStar>)
      modifies this`userStars
      ensures userStars == annotations
    {
      userStars := annotations;
    }

    /** `MAP_USER_STARS_TO_GITHUB_STARS`: each star takes the non-empty tags
        and notes of the first annotation with its id. */
    method MapUserStarsToGitHubStars()
      modifies this`stars
      ensures stars == WithUserStars(old(stars), userStars)
    {
      var i := 0;
      while i < |stars|
        invariant 0 <= i <= |stars| == |old(stars)|
        invariant forall k :: 0 <= k < i ==> stars[k] == Overlay(old(stars)[k], userStars)
        invariant forall k :: i <= k < |stars| ==> stars[k] == old(stars)[k]
      {
        var star := stars[i];
        var found := FindUserStar(userStars, star.node.id);
        if found.Some? && (|found.value.tags| > 0 || found.value.notes != "") {
          if |found.value.tags| > 0 {
            star := star.(tags := found.value.tags);
          }
          if found.value.notes != "" {
            star := star.(notes := found.value.notes);
          }
          stars := stars[i := star];
        }
        i := i + 1;
      }
    }

    /** `SET_CURRENT_STAR`: the snapshot is a shallow copy of the object
        passed, which has the same shape: a star, `{}` or `{ notes }`. */
    method SetCurrentStar(star: Snapshot)
      modifies this`currentStar
      ensures currentStar == star
    {
      currentStar := star;
    }

    method SetReadme(html: string)
      modifies this`readme
      ensures readme == html
    {
      readme := html;
    }

    method SetViewingUntagged(viewing: bool)
      modifies this`viewingUntagged
      ensures viewingUntagged == viewing
    {
      viewingUntagged := viewing;
    }

    /** `SET_STAR_NOTES`: every star with the id gets the notes, and so does
        the snapshot, whichever star it holds. */
    method SetStarNotes(id: string, notes: string)
      modifies this`stars, this`currentStar
      ensures stars == WithNotes(old(stars), id, notes)
      ensures currentStar == SnapshotWithNotes(old(currentStar), notes)
    {
      var i := 0;
      while i < |stars|
        invariant 0 <= i <= |stars| == |old(stars)|
        invariant forall k :: 0 <= k < i ==> stars[k] == ReplaceNotes(old(stars)[k], id, notes)
        invariant forall k :: i <= k < |stars| ==> stars[k] == old(stars)[k]
        invariant currentStar == old(currentStar)
      {
        if stars[i].node.id == id {
          stars := stars[i := stars[i].(notes := notes)];
        }
        i := i + 1;
      }
      currentStar := match currentStar
        case NoStar => NotesOnly(notes)
        case Copy(star) => Copy(star.(notes := notes))
        case NotesOnly(_) => NotesOnly(notes);
    }

    /** `SET_TAGS` of the tags module. */
    method SetTags(list: seq<Tag>)
      modifies this`tags
      ensures tags == list
    {
      tags := list;
    }

    /** `SET_CURRENT_TAG` of the tags module. */
    method SetCurrentTag(tag: Option<Tag>)
      modifies this`currentTag
      ensures currentTag == tag
    {
      currentTag := tag;
    }

    /** `fetchGitHubStars(cursor)` once the page `res` has arrived: the edges
        are appended with empty tags and notes, `pageInfo` is taken over, the
        total is taken over only for a first page, and the annotations are
        laid over the whole collection again. */
    method OnGitHubStarsPage(cursor: Option<string>, res: GitHubStarsPage)
      modifies this`stars, this`pageInfo, this`totalStars
      ensures stars == WithUserStars(old(stars) + Prepared(res.edges), userStars)
      ensures pageInfo == res.pageInfo
      ensures totalStars == if NoCursor(cursor) then res.totalCount else old(totalStars)
    {
      var page: seq<Star> := [];
      var i := 0;
      while i < |res.edges|
        invariant 0 <= i <= |res.edges|
        invariant page == Prepared(res.edges[..i])
      {
        page := page + [Star(res.edges[i].node, [], "")];
        i := i + 1;
      }
      assert res.edges[..i] == res.edges;
      SetStars(page);
      SetStarsPageInfo(res.pageInfo);
      if cursor.None? || cursor.value == "" {
        SetTotalStars(res.totalCount);
      }
      MapUserStarsToGitHubStars();
    }

    /** `fetchUserStars` once the annotations have arrived. */
    method OnUserStars(res: seq<UserStar>)
      modifies this`userStars
      ensures userStars == res
    {
      SetUserStars(res);
    }

    /** `pushStarTag` once the server has answered: only the tag list is
        replaced; the star itself was changed before the request. */
    method OnStarTagPushed(resTags: seq<Tag>)
      modifies this`tags
      ensures tags == resTags
    {
      SetTags(resTags);
    }

    /** `syncStarTags(relayId, ...)` once the server has answered: the star
        takes the server's tags, not the ones that were sent. */
    method OnStarTagsSynced(relayId: string, res: SyncedTags)
      modifies this`tags, this`stars
      ensures tags == res.tags
      ensures stars == WithTags(old(stars), relayId, res.starTags)
    {
      SetTags(res.tags);
      SetStarTags(relayId, res.starTags);
    }

    /** `editStarNotes(relayId, notes)` once the server has acknowledged: the
        notes are set only now, not before the request. */
    method OnStarNotesSaved(relayId: string, notes: string)
      modifies this`stars, this`currentStar
      ensures stars == WithNotes(old(stars), relayId, notes)
      ensures currentStar == SnapshotWithNotes(old(currentStar), notes)
    {
      SetStarNotes(relayId, notes);
    }

    /** `cleanupStars` once the remaining annotations have arrived: they
        replace the annotations and are laid over the collection again; no
        star is removed. */
    method OnStarsCleanedUp(res: seq<UserStar>)
      modifies this`userStars, this`stars
      ensures userStars == res
      ensures stars == WithUserStars(old(stars), res)
    {
      SetUserStars(res);
      MapUserStarsToGitHubStars();
    }

    /** The `setViewingUntagged` action: viewing untagged stars clears the
        selected tag. */
    method ViewUntagged(viewing: bool)
      modifies this`currentTag, this`viewingUntagged
      ensures viewingUntagged == viewing
      ensures currentTag == if viewing then None else old(currentTag)
    {
      if viewing {
        SetCurrentTag(None);
      }
      SetViewingUntagged(viewing);
    }
  }
}
