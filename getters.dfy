/** The derived getters of the stars store: the language histogram and the
    position of the selected star. */
module StarGetters {
  import opened StarRecords

  /** The language names of the stars that have a primary language, in order:
      `stars.map(primaryLanguage || null).filter(Boolean).map(name)`. */
  function LanguageNames(stars: seq<Star>): seq<string>
  {
    if stars == [] then []
    else
      (match stars[0].node.primaryLanguage
       case None => []
       case Some(language) => [language.name])
      + LanguageNames(stars[1..])
  }

  /** `(prev[cur] || 0) + 1` stored back under `cur`. */
  function Bump(acc: map<string, nat>, name: string): map<string, nat>
  {
    acc[name := Get(acc, name) + 1]
  }

  /** The `reduce` over the names, from the left. */
  function Tally(acc: map<string, nat>, names: seq<string>): map<string, nat>
    decreases |names|
  {
    if names == [] then acc else Tally(Bump(acc, names[0]), names[1..])
  }

  /** The `languages` getter. */
  function Languages(stars: seq<Star>): map<string, nat>
  {
    Tally(map[], LanguageNames(stars))
  }

  /** A histogram's entry for a key, 0 where the key is absent. */
  function Get(m: map<string, nat>, name: string): nat
  {
    if name in m then m[name] else 0
  }

  /** How often `name` occurs in `names`. */
  function Occurrences(names: seq<string>, name: string): nat
  {
    if names == [] then 0
    else (if names[0] == name then 1 else 0) + Occurrences(names[1..], name)
  }

  /** Reference count: the number of stars whose primary language is `name`. */
  function CountLanguage(stars: seq<Star>, name: string): nat
  {
    if stars == [] then 0
    else (if stars[0].node.primaryLanguage == Some(Language(name)) then 1 else 0)
         + CountLanguage(stars[1..], name)
  }

  /** Reference key set: the names of the primary languages present. */
  ghost function PresentLanguages(stars: seq<Star>): set<string>
  {
    set i | 0 <= i < |stars| && stars[i].node.primaryLanguage.Some? :: stars[i].node.primaryLanguage.value.name
  }

  lemma {:induction false} TallyCounts(acc: map<string, nat>, names: seq<string>, name: string)
    ensures Get(Tally(acc, names), name) == Get(acc, name) + Occurrences(names, name)
    decreases |names|
  {
    if names != [] {
      TallyCounts(Bump(acc, names[0]), names[1..], name);
    }
  }

  lemma {:induction false} TallyKeys(acc: map<string, nat>, names: seq<string>)
    ensures Tally(acc, names).Keys == acc.Keys + (set n | n in names)
    decreases |names|
  {
    if names != [] {
      TallyKeys(Bump(acc, names[0]), names[1..]);
      assert (set n | n in names) == {names[0]} + (set n | n in names[1..]);
    }
  }

  lemma {:induction false} LanguageNamesCount(stars: seq<Star>, name: string)
    ensures Occurrences(LanguageNames(stars), name) == CountLanguage(stars, name)
  {
    if stars != [] {
      LanguageNamesCount(stars[1..], name);
      var head := match stars[0].node.primaryLanguage case None => [] case Some(l) => [l.name];
      OccurrencesAppend(head, LanguageNames(stars[1..]), name);
    }
  }

  lemma {:induction false} OccurrencesAppend(a: seq<string>, b: seq<string>, name: string)
    ensures Occurrences(a + b, name) == Occurrences(a, name) + Occurrences(b, name)
  {
    if a != [] {
      assert (a + b)[1..] == a[1..] + b;
      OccurrencesAppend(a[1..], b, name);
    } else {
      assert a + b == b;
    }
  }

  lemma {:induction false} LanguageNamesPresent(stars: seq<Star>)
    ensures (set n | n in LanguageNames(stars)) == PresentLanguages(stars)
  {
    if stars != [] {
      LanguageNamesPresent(stars[1..]);
      var rest := stars[1..];
      assert PresentLanguages(stars) ==
        (match stars[0].node.primaryLanguage case None => {} case Some(l) => {l.name})
        + PresentLanguages(rest)
      by {
        forall x | x in PresentLanguages(stars)
          ensures x in (match stars[0].node.primaryLanguage case None => {} case Some(l) => {l.name}) + PresentLanguages(rest)
        {
          var i :| 0 <= i < |stars| && stars[i].node.primaryLanguage.Some? && stars[i].node.primaryLanguage.value.name == x;
          if i > 0 { assert rest[i - 1] == stars[i]; }
        }
        forall x | x in PresentLanguages(rest) ensures x in PresentLanguages(stars) {
          var i :| 0 <= i < |rest| && rest[i].node.primaryLanguage.Some? && rest[i].node.primaryLanguage.value.name == x;
          assert stars[i + 1] == rest[i];
        }
      }
    }
  }

  lemma {:induction false} OccurrencesPositive(names: seq<string>, name: string)
    ensures Occurrences(names, name) > 0 <==> name in names
  {
    if names != [] {
      OccurrencesPositive(names[1..], name);
      assert names == [names[0]] + names[1..];
    }
  }

  /** What the `languages` getter promises: every name maps to the number of
      stars with that primary language, stars without one count nowhere, and
      the keys are exactly the names present. */
  lemma LanguagesCorrect(stars: seq<Star>, name: string)
    ensures Get(Languages(stars), name) == CountLanguage(stars, name)
    ensures name in Languages(stars) <==> CountLanguage(stars, name) > 0
    ensures Languages(stars).Keys == PresentLanguages(stars)
  {
    TallyCounts(map[], LanguageNames(stars), name);
    LanguageNamesCount(stars, name);
    TallyKeys(map[], LanguageNames(stars));
    LanguageNamesPresent(stars);
    OccurrencesPositive(LanguageNames(stars), name);
  }

  lemma {:induction false} CountLanguageAppend(a: seq<Star>, b: seq<Star>, name: string)
    ensures CountLanguage(a + b, name) == CountLanguage(a, name) + CountLanguage(b, name)
  {
    if a != [] {
      assert (a + b)[1..] == a[1..] + b;
      CountLanguageAppend(a[1..], b, name);
    } else {
      assert a + b == b;
    }
  }

  /** The histogram of `a + b` adds the histograms of `a` and `b`. */
  lemma LanguagesAppend(a: seq<Star>, b: seq<Star>, name: string)
    ensures Get(Languages(a + b), name) == Get(Languages(a), name) + Get(Languages(b), name)
  {
    LanguagesCorrect(a + b, name);
    LanguagesCorrect(a, name);
    LanguagesCorrect(b, name);
    CountLanguageAppend(a, b, name);
  }

  /** The histogram depends on the stars' nodes only, not on tags or notes. */
  lemma {:induction false} LanguagesDependOnNodes(a: seq<Star>, b: seq<Star>)
    requires |a| == |b|
    requires forall i :: 0 <= i < |a| ==> a[i].node == b[i].node
    ensures LanguageNames(a) == LanguageNames(b)
    ensures Languages(a) == Languages(b)
  {
    if a != [] {
      LanguagesDependOnNodes(a[1..], b[1..]);
    }
  }

  /** `findIndex` by node id: the first position with that id, or -1. */
  function FindIndex(stars: seq<Star>, id: string): (r: int)
    ensures -1 <= r < |stars|
    ensures 0 <= r ==> stars[r].node.id == id
    ensures 0 <= r ==> forall k :: 0 <= k < r ==> stars[k].node.id != id
    ensures r == -1 <==> forall k :: 0 <= k < |stars| ==> stars[k].node.id != id
  {
    if stars == [] then -1
    else if stars[0].node.id == id then 0
    else
      var r := FindIndex(stars[1..], id);
      if r == -1 then -1 else r + 1
  }

  /** The `currentStarIndex` getter either yields a number or throws: on the
      snapshot `{ notes }` the `findIndex` callback reads `id` of an undefined
      `node`, which happens as soon as there is a star to call it on. */
  datatype IndexResult = Index(value: int) | NodeUndefined

  /** The `currentStarIndex` getter. */
  function CurrentStarIndex(stars: seq<Star>, current: Snapshot): (r: IndexResult)
    ensures current.NoStar? ==> r == Index(-1)
    ensures r.NodeUndefined? <==> current.NotesOnly? && |stars| > 0
    ensures r.Index? ==> -1 <= r.value < |stars|
    ensures r.Index? && 0 <= r.value ==>
      current.Copy? && stars[r.value].node.id == current.star.node.id &&
      forall k :: 0 <= k < r.value ==> stars[k].node.id != current.star.node.id
    ensures r == Index(-1) <==>
      || current.NoStar?
      || (current.NotesOnly? && stars == [])
      || (current.Copy? && forall k :: 0 <= k < |stars| ==> stars[k].node.id != current.star.node.id)
  {
    match current
    case NoStar => Index(-1)
    case Copy(star) => Index(FindIndex(stars, star.node.id))
    case NotesOnly(_) => if stars == [] then Index(-1) else NodeUndefined
  }
}
