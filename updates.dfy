/** What each mutation of the stars store does to the collection of stars and
    to the snapshot, as functions of the old values. The store's methods are
    proved to compute exactly these. */
module StarUpdates {
  import opened StarRecords

  /** The page handler's `edge.tags = []; edge.notes = ''` on every edge. */
  function Prepared(edges: seq<Edge>): (r: seq<Star>)
    ensures |r| == |edges|
    ensures forall i :: 0 <= i < |r| ==> r[i].node == edges[i].node && r[i].tags == [] && r[i].notes == ""
  {
    seq(|edges|, i requires 0 <= i < |edges| => Star(edges[i].node, [], ""))
  }

  /** `SET_STARS` applied once per page, in order. */
  function AppendPages(stars: seq<Star>, pages: seq<seq<Star>>): seq<Star>
    decreases |pages|
  {
    if pages == [] then stars else AppendPages(stars + pages[0], pages[1..])
  }

  /** The number of records in all pages together. */
  function TotalLength(pages: seq<seq<Star>>): nat
  {
    if pages == [] then 0 else |pages[0]| + TotalLength(pages[1..])
  }

  /** Appending pages one after another loses nothing, deduplicates nothing
      and keeps what was there as a prefix. */
  lemma {:induction false} AppendPagesKeepsAll(stars: seq<Star>, pages: seq<seq<Star>>)
    ensures |AppendPages(stars, pages)| == |stars| + TotalLength(pages)
    ensures AppendPages(stars, pages)[..|stars|] == stars
    decreases |pages|
  {
    if pages != [] {
      AppendPagesKeepsAll(stars + pages[0], pages[1..]);
      assert (stars + pages[0])[..|stars|] == stars;
    }
  }

  /** One star under `PUSH_STAR_TAG`: the tag is pushed when the id matches
      and no tag of that name is there yet. */
  function PushTagOnto(star: Star, starId: string, tag: Tag): Star
  {
    if star.node.id == starId && tag.name !in TagNames(star.tags)
    then star.(tags := star.tags + [tag])
    else star
  }

  /** The collection after `PUSH_STAR_TAG(starId, tag)`. */
  function WithPushedTag(stars: seq<Star>, starId: string, tag: Tag): (r: seq<Star>)
    ensures |r| == |stars| && Ids(r) == Ids(stars)
    ensures forall i :: 0 <= i < |r| ==> r[i].node == stars[i].node && r[i].notes == stars[i].notes
    ensures forall i :: 0 <= i < |r| && stars[i].node.id != starId ==> r[i] == stars[i]
    ensures forall i :: 0 <= i < |r| && (exists j :: 0 <= j < |stars[i].tags| && stars[i].tags[j].name == tag.name) ==> r[i] == stars[i]
    ensures forall i :: 0 <= i < |r| && stars[i].node.id == starId && (forall j :: 0 <= j < |stars[i].tags| ==> stars[i].tags[j].name != tag.name) ==>
      r[i].tags == stars[i].tags + [tag]
  {
    var r := seq(|stars|, i requires 0 <= i < |stars| => PushTagOnto(stars[i], starId, tag));
    assert Ids(r) == Ids(stars);
    forall i, j | 0 <= i < |stars| && 0 <= j < |stars[i].tags| && stars[i].tags[j].name == tag.name
      ensures tag.name in TagNames(stars[i].tags)
    {
      assert TagNames(stars[i].tags)[j] == tag.name;
    }
    r
  }

  /** Pushing the same tag twice is the same as pushing it once. */
  lemma PushTagIdempotent(stars: seq<Star>, starId: string, tag: Tag)
    ensures WithPushedTag(WithPushedTag(stars, starId, tag), starId, tag) == WithPushedTag(stars, starId, tag)
  {
    var once := WithPushedTag(stars, starId, tag);
    forall i | 0 <= i < |stars| ensures WithPushedTag(once, starId, tag)[i] == once[i] {
      if stars[i].node.id == starId && tag.name !in TagNames(stars[i].tags) {
        assert TagNames(once[i].tags)[|stars[i].tags|] == tag.name;
      }
    }
  }

  /** A star whose tag names were unique keeps them unique. */
  lemma PushTagKeepsNamesUnique(stars: seq<Star>, starId: string, tag: Tag)
    requires forall i :: 0 <= i < |stars| ==> UniqueNames(stars[i].tags)
    ensures forall i :: 0 <= i < |stars| ==> UniqueNames(WithPushedTag(stars, starId, tag)[i].tags)
  {
  }

  /** One star under `SET_STAR_TAGS`. */
  function ReplaceTags(star: Star, starId: string, tags: seq<Tag>): Star
  {
    if star.node.id == starId then star.(tags := tags) else star
  }

  /** The collection after `SET_STAR_TAGS(starId, tags)`: every star with the
      id carries exactly `tags`, every other star is as it was. */
  function WithTags(stars: seq<Star>, starId: string, tags: seq<Tag>): (r: seq<Star>)
    ensures |r| == |stars| && Ids(r) == Ids(stars)
    ensures forall i :: 0 <= i < |r| ==> r[i].node == stars[i].node && r[i].notes == stars[i].notes
    ensures forall i :: 0 <= i < |r| ==> r[i].tags == if stars[i].node.id == starId then tags else stars[i].tags
  {
    var r := seq(|stars|, i requires 0 <= i < |stars| => ReplaceTags(stars[i], starId, tags));
    assert Ids(r) == Ids(stars);
    r
  }

  /** `userStars.find(s => s.relay_id === id)`: the first annotation for `id`. */
  function FindUserStar(userStars: seq<UserStar>, id: string): (r: Option<UserStar>)
    ensures r.None? <==> forall k :: 0 <= k < |userStars| ==> userStars[k].relayId != id
    ensures r.Some? ==> exists i :: (0 <= i < |userStars| && userStars[i] == r.value &&
      r.value.relayId == id && forall k :: 0 <= k < i ==> userStars[k].relayId != id)
  {
    if userStars == [] then None
    else if userStars[0].relayId == id then Some(userStars[0])
    else
      var r := FindUserStar(userStars[1..], id);
      assert r.Some? ==> exists i :: (0 <= i < |userStars| && userStars[i] == r.value &&
        r.value.relayId == id && forall k :: 0 <= k < i ==> userStars[k].relayId != id) by {
        if r.Some? {
          var i :| 0 <= i < |userStars| - 1 && userStars[1..][i] == r.value &&
            forall k :: 0 <= k < i ==> userStars[1..][k].relayId != id;
          assert userStars[i + 1] == r.value;
          forall k | 0 <= k < i + 1 ensures userStars[k].relayId != id {
            if k > 0 { assert userStars[k] == userStars[1..][k - 1]; }
          }
        }
      }
      r
  }

  /** How an annotation may change a star: non-empty tags replace the tags,
      non-empty notes replace the notes, nothing else moves. */
  ghost predicate OverlaidBy(before: Star, after: Star, annotation: Option<UserStar>)
  {
    && after.node == before.node
    && match annotation
       case None => after == before
       case Some(u) =>
         && after.tags == (if |u.tags| > 0 then u.tags else before.tags)
         && after.notes == (if u.notes != "" then u.notes else before.notes)
  }

  /** One star under `MAP_USER_STARS_TO_GITHUB_STARS`. */
  function Overlay(star: Star, userStars: seq<UserStar>): Star
  {
    match FindUserStar(userStars, star.node.id)
    case None => star
    case Some(u) =>
      if |u.tags| > 0 || u.notes != "" then
        var withTags := if |u.tags| > 0 then star.(tags := u.tags) else star;
        if u.notes != "" then withTags.(notes := u.notes) else withTags
      else star
  }

  /** The collection after `MAP_USER_STARS_TO_GITHUB_STARS`: each star takes
      the non-empty parts of its first annotation. */
  function WithUserStars(stars: seq<Star>, userStars: seq<UserStar>): (r: seq<Star>)
    ensures |r| == |stars| && Ids(r) == Ids(stars)
    ensures forall i :: 0 <= i < |r| ==> OverlaidBy(stars[i], r[i], FindUserStar(userStars, stars[i].node.id))
  {
    var r := seq(|stars|, i requires 0 <= i < |stars| => Overlay(stars[i], userStars));
    assert Ids(r) == Ids(stars);
    r
  }

  /** A star without an annotation, or with an empty one, is left alone. */
  lemma OverlayWithoutAnnotation(stars: seq<Star>, userStars: seq<UserStar>, i: int)
    requires 0 <= i < |stars|
    requires (forall k :: 0 <= k < |userStars| ==> userStars[k].relayId != stars[i].node.id)
      || (exists k :: 0 <= k < |userStars| && userStars[k].relayId == stars[i].node.id &&
            userStars[k].tags == [] && userStars[k].notes == "" &&
            forall j :: 0 <= j < k ==> userStars[j].relayId != stars[i].node.id)
    ensures WithUserStars(stars, userStars)[i] == stars[i]
  {
  }

  /** Re-running the overlay with the same annotations changes nothing. */
  lemma OverlayIdempotent(stars: seq<Star>, userStars: seq<UserStar>)
    ensures WithUserStars(WithUserStars(stars, userStars), userStars) == WithUserStars(stars, userStars)
  {
  }

  /** One star under `SET_STAR_NOTES`. */
  function ReplaceNotes(star: Star, id: string, notes: string): Star
  {
    if star.node.id == id then star.(notes := notes) else star
  }

  /** The collection after `SET_STAR_NOTES(id, notes)`. */
  function WithNotes(stars: seq<Star>, id: string, notes: string): (r: seq<Star>)
    ensures |r| == |stars| && Ids(r) == Ids(stars)
    ensures forall i :: 0 <= i < |r| ==> r[i].node == stars[i].node && r[i].tags == stars[i].tags
    ensures forall i :: 0 <= i < |r| ==> r[i].notes == if stars[i].node.id == id then notes else stars[i].notes
  {
    var r := seq(|stars|, i requires 0 <= i < |stars| => ReplaceNotes(stars[i], id, notes));
    assert Ids(r) == Ids(stars);
    r
  }

  /** The snapshot after `SET_STAR_NOTES`: `{ ...currentStar, notes }`, for
      whichever star is selected, and `{ notes }` when none is. */
  function SnapshotWithNotes(current: Snapshot, notes: string): (r: Snapshot)
    ensures r.Copy? <==> current.Copy?
    ensures r.Copy? ==> r.star.node == current.star.node && r.star.tags == current.star.tags && r.star.notes == notes
    ensures !current.Copy? ==> r == NotesOnly(notes)
  {
    match current
    case NoStar => NotesOnly(notes)
    case Copy(star) => Copy(star.(notes := notes))
    case NotesOnly(_) => NotesOnly(notes)
  }
}
