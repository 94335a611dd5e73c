/** Texture bookkeeping of js/assets.js: the round-robin cursor, the
    Fisher-Yates shuffle, the cover-fit crop, the dispatch on media items and
    the Vimeo ID extraction. Loading itself (image and video elements, the
    network) is not modelled; `Load` starts from the loaders' results. */
module Assets {
  import opened Wrappers
  import opened Numeric

  /** A loaded texture. `imageAspect` is the natural width / height the image
      loader records; a video texture has none. */
  datatype Texture = Texture(id: nat, imageAspect: Option<real>)

  /** The repeat and offset coverFit writes into a texture. */
  datatype Fit = Fit(repeatX: real, repeatY: real, offsetX: real, offsetY: real)

  /* ── coverFit(tex, shapeAspect) ──────────────── */

  /** `tex && tex._imageAspect` is truthy: a texture with a non-zero aspect. */
  predicate HasAspect(tex: Option<Texture>) {
    tex.Some? && tex.value.imageAspect.Some? && tex.value.imageAspect.value != 0.0
  }

  /** The crop coverFit sets, or None where it returns without touching the texture. */
  function CoverFit(tex: Option<Texture>, shapeAspect: real): (f: Option<Fit>)
    requires shapeAspect > 0.0
    ensures f.None? <==> !HasAspect(tex)
  {
    if !HasAspect(tex) then None
    else
      var img := tex.value.imageAspect.value;
      var repeatX := if img > shapeAspect then shapeAspect / img else 1.0;
      var repeatY := if img > shapeAspect then 1.0 else img / shapeAspect;
      Some(Fit(repeatX, repeatY, (1.0 - repeatX) / 2.0, (1.0 - repeatY) / 2.0))
  }

  /** For an image of positive aspect the crop is a "cover": both repeats lie in
      (0, 1] and one of them is 1, so the image fills the shape along one axis
      and is cut along the other; the visible window has the shape's aspect
      (repeatX * imageAspect == repeatY * shapeAspect), so nothing is
      stretched; and the window is centred (offset + repeat / 2 == 1 / 2). */
  lemma CoverFitIsCentredCover(tex: Option<Texture>, shapeAspect: real)
    requires shapeAspect > 0.0 && HasAspect(tex) && tex.value.imageAspect.value > 0.0
    ensures var f := CoverFit(tex, shapeAspect).value;
      var img := tex.value.imageAspect.value;
      && 0.0 < f.repeatX <= 1.0 && 0.0 < f.repeatY <= 1.0
      && (f.repeatX == 1.0 || f.repeatY == 1.0)
      && f.repeatX * img == f.repeatY * shapeAspect
      && f.offsetX + f.repeatX / 2.0 == 0.5 && f.offsetY + f.repeatY / 2.0 == 0.5
      && (img > shapeAspect ==> f.repeatY == 1.0 && f.repeatX < 1.0)
      && (img <= shapeAspect ==> f.repeatX == 1.0)
  {
    var img := tex.value.imageAspect.value;
    if img > shapeAspect {
      Ratio(shapeAspect, img);
      assert (shapeAspect / img) * img == shapeAspect;
    } else {
      Ratio(img, shapeAspect);
      assert (img / shapeAspect) * shapeAspect == img;
    }
  }

  /* ── _loadItem(item) ─────────────────────────── */

  /** A media item: a string (an image path), an object with a `type` field, or anything else. */
  datatype Item = ImagePath(path: string) | Typed(kind: string, src: string, id: string) | Other

  /** Which loader an item goes to; Skip is the `Promise.resolve(null)` paths. */
  datatype Request = LoadImage(path: string) | LoadVideo(src: string) | FetchVimeoThumb(id: string) | Skip

  function Dispatch(item: Item): (r: Request)
    ensures r.LoadImage? ==> item.ImagePath?
    ensures r.LoadVideo? ==> item.Typed? && item.kind == "video"
    ensures r.FetchVimeoThumb? ==> item.Typed? && item.kind == "vimeo"
  {
    match item
    case ImagePath(path) => LoadImage(path)
    case Typed(kind, src, id) =>
      if kind == "video" then LoadVideo(src)
      else if kind == "vimeo" then
        match VimeoId(id)
        case None => Skip
        case Some(digits) => FetchVimeoThumb(digits)
      else Skip
    case Other => Skip
  }

  /** Strings go to the image loader, `{type: 'video'}` to the video loader with
      its src, `{type: 'vimeo'}` to the thumbnail fetch exactly when its id
      holds a digit (and then with the first run of digits), and any other
      item to nothing. */
  lemma DispatchRoutes(item: Item)
    ensures item.ImagePath? ==> Dispatch(item) == LoadImage(item.path)
    ensures item.Typed? && item.kind == "video" ==> Dispatch(item) == LoadVideo(item.src)
    ensures item.Typed? && item.kind == "vimeo" ==>
      && (Dispatch(item) == Skip <==> forall j :: 0 <= j < |item.id| ==> !IsDigit(item.id[j]))
      && (Dispatch(item) != Skip ==> Some(Dispatch(item).id) == VimeoId(item.id))
    ensures item.Other? || (item.Typed? && item.kind != "video" && item.kind != "vimeo") ==>
      Dispatch(item) == Skip
  {
  }

  /* ── The Vimeo ID: String(videoId).match(/(\d+)/)?.[1] ── */

  predicate IsDigit(c: char) {
    '0' <= c <= '9'
  }

  /** The index of the first decimal digit at or after i, or |s| when there is none. */
  function FirstDigitFrom(s: string, i: nat): (k: nat)
    requires i <= |s|
    ensures i <= k <= |s|
    ensures forall j :: i <= j < k ==> !IsDigit(s[j])
    ensures k < |s| ==> IsDigit(s[k])
    decreases |s| - i
  {
    if i == |s| || IsDigit(s[i]) then i else FirstDigitFrom(s, i + 1)
  }

  /** The end of the run of digits that starts at i. */
  function DigitRunEnd(s: string, i: nat): (k: nat)
    requires i <= |s|
    ensures i <= k <= |s|
    ensures forall j :: i <= j < k ==> IsDigit(s[j])
    ensures k < |s| ==> !IsDigit(s[k])
    decreases |s| - i
  {
    if i == |s| || !IsDigit(s[i]) then i else DigitRunEnd(s, i + 1)
  }

  /** The first maximal run of decimal digits, or None when there is no digit. */
  function VimeoId(s: string): (r: Option<string>)
    ensures r.None? <==> forall j :: 0 <= j < |s| ==> !IsDigit(s[j])
    ensures r.Some? ==> |r.value| > 0 && forall j :: 0 <= j < |r.value| ==> IsDigit(r.value[j])
  {
    var start := FirstDigitFrom(s, 0);
    if start == |s| then None else Some(s[start..DigitRunEnd(s, start)])
  }

  /** The run found is the first one and is maximal: in any string made of a
      digit-free prefix, a non-empty run of digits and a rest that does not
      start with a digit, the ID is exactly that run. */
  lemma VimeoIdIsFirstMaximalRun(prefix: string, digits: string, rest: string)
    requires forall j :: 0 <= j < |prefix| ==> !IsDigit(prefix[j])
    requires |digits| > 0 && forall j :: 0 <= j < |digits| ==> IsDigit(digits[j])
    requires |rest| == 0 || !IsDigit(rest[0])
    ensures VimeoId(prefix + digits + rest) == Some(digits)
  {
    var s := prefix + digits + rest;
    var start := FirstDigitFrom(s, 0);
    assert IsDigit(s[|prefix|]);
    assert forall j :: 0 <= j < |prefix| ==> s[j] == prefix[j];
    assert start == |prefix|;
    var end := DigitRunEnd(s, start);
    assert forall j :: |prefix| <= j < |prefix| + |digits| ==> s[j] == digits[j - |prefix|];
    assert |rest| > 0 ==> s[|prefix| + |digits|] == rest[0];
    assert end == |prefix| + |digits|;
    assert s[start..end] == digits;
  }

  /** A full Vimeo URL yields its numeric ID. */
  lemma VimeoIdOfUrl()
    ensures VimeoId("https://vimeo.com/351686539") == Some("351686539")
  {
    VimeoIdIsFirstMaximalRun("https://vimeo.com/", "351686539", "");
    assert "https://vimeo.com/" + "351686539" + "" == "https://vimeo.com/351686539";
  }

  /* ── _shuffle(arr): Fisher-Yates ─────────────── */

  /** Math.floor(Math.random() * (i + 1)): a partner index in [0, i]. */
  function SwapIndex(r: real, i: nat): (j: nat)
    requires Unit(r)
    ensures j <= i
  {
    MulMonotone(0.0, r, (i + 1) as real);
    MulStrict(r, 1.0, (i + 1) as real);
    (r * (i + 1) as real).Floor
  }

  function Swap<T>(s: seq<T>, i: nat, j: nat): (r: seq<T>)
    requires i < |s| && j < |s|
    ensures |r| == |s|
  {
    s[i := s[j]][j := s[i]]
  }

  /** All draws lie in [0, 1). */
  predicate Draws(rs: seq<real>) {
    forall k :: 0 <= k < |rs| ==> Unit(rs[k])
  }

  /** The steps i, i - 1, ..., 1 of the shuffle, step k swapping position k with
      position SwapIndex(rs[k - 1], k). */
  function ShuffleDown<T>(s: seq<T>, rs: seq<real>, i: nat): (r: seq<T>)
    requires i < |s| && i <= |rs| && Draws(rs)
    ensures |r| == |s|
    decreases i
  {
    if i == 0 then s else ShuffleDown(Swap(s, i, SwapIndex(rs[i - 1], i)), rs, i - 1)
  }

  /** The result of _shuffle for the given draws (one per step). */
  function Shuffled<T>(s: seq<T>, rs: seq<real>): (r: seq<T>)
    requires |s| <= |rs| + 1 && Draws(rs)
  {
    if |s| == 0 then s else ShuffleDown(s, rs, |s| - 1)
  }

  /** A swap only exchanges two elements. */
  lemma SwapKeepsMultiset<T>(s: seq<T>, i: nat, j: nat)
    requires i < |s| && j < |s|
    ensures multiset(Swap(s, i, j)) == multiset(s)
  {
  }

  lemma {:induction false} ShuffleDownKeepsMultiset<T>(s: seq<T>, rs: seq<real>, i: nat)
    requires i < |s| && i <= |rs| && Draws(rs)
    ensures multiset(ShuffleDown(s, rs, i)) == multiset(s)
    decreases i
  {
    if i > 0 {
      var j := SwapIndex(rs[i - 1], i);
      SwapKeepsMultiset(s, i, j);
      ShuffleDownKeepsMultiset(Swap(s, i, j), rs, i - 1);
    }
  }

  /** The shuffle only reorders: same length, same elements with the same multiplicities. */
  lemma ShuffledIsPermutation<T>(s: seq<T>, rs: seq<real>)
    requires |s| <= |rs| + 1 && Draws(rs)
    ensures |Shuffled(s, rs)| == |s|
    ensures multiset(Shuffled(s, rs)) == multiset(s)
  {
    if |s| > 0 {
      ShuffleDownKeepsMultiset(s, rs, |s| - 1);
    }
  }

  /** _shuffle(arr), in place; the draws are consumed from the last position down. */
  method Shuffle<T>(a: array<T>, rs: seq<real>)
    requires a.Length <= |rs| + 1 && Draws(rs)
    modifies a
    ensures a[..] == Shuffled(old(a[..]), rs)
  {
    if a.Length == 0 {
      return;
    }
    var i := a.Length - 1;
    while i > 0
      invariant 0 <= i < a.Length
      invariant ShuffleDown(a[..], rs, i) == Shuffled(old(a[..]), rs)
      decreases i
    {
      var j := SwapIndex(rs[i - 1], i);
      ghost var before := a[..];
      a[i], a[j] := a[j], a[i];
      SwapStep(before, a[..], rs, i, j);
      i := i - 1;
    }
  }

  /** One step of the loop: after swapping positions i and j, the remaining
      steps i - 1, ..., 1 produce what steps i, ..., 1 produced before. */
  lemma SwapStep<T>(before: seq<T>, after: seq<T>, rs: seq<real>, i: nat, j: nat)
    requires 0 < i < |before| && i <= |rs| && Draws(rs) && j == SwapIndex(rs[i - 1], i)
    requires |after| == |before| && after[i] == before[j] && after[j] == before[i]
    requires forall k :: 0 <= k < |before| && k != i && k != j ==> after[k] == before[k]
    ensures ShuffleDown(after, rs, i - 1) == ShuffleDown(before, rs, i)
  {
    assert after == Swap(before, i, j);
  }

  /* ── The texture list ────────────────────────── */

  /** textures.filter(Boolean) over what the loaders resolved, in the order they finished. */
  function Successes(results: seq<Option<Texture>>): (r: seq<Texture>)
    ensures |r| <= |results|
  {
    if |results| == 0 then []
    else (if results[0].Some? then [results[0].value] else []) + Successes(results[1..])
  }

  /** Exactly the non-null results are kept, each as often as it occurs. */
  lemma {:induction false} SuccessesAreTheLoaded(results: seq<Option<Texture>>)
    ensures forall t :: multiset(Successes(results))[t] == multiset(results)[Some(t)]
  {
    if |results| > 0 {
      SuccessesAreTheLoaded(results[1..]);
      assert results == [results[0]] + results[1..];
    }
  }

  /** The position next() reads on its k-th call from cursor c over n textures. */
  function Slot(c: nat, n: nat, k: nat): (s: nat)
    requires n > 0
    ensures s < n
  {
    (c + k) % n
  }

  /** The positions read by n consecutive calls of next() from cursor c. */
  function Visited(c: nat, n: nat): set<nat>
    requires n > 0
  {
    set k | 0 <= k < n :: Slot(c, n, k)
  }

  /** n consecutive calls of next() read every one of the n textures exactly
      once: the n positions are pairwise distinct and together they are all
      of 0 .. n - 1. */
  lemma RoundRobinVisitsAll(c: nat, n: nat)
    requires n > 0
    ensures forall i, j :: 0 <= i < j < n ==> Slot(c, n, i) != Slot(c, n, j)
    ensures forall t: nat :: t in Visited(c, n) <==> t < n
  {
    forall i, j | 0 <= i < j < n
      ensures Slot(c, n, i) != Slot(c, n, j)
    {
      SlotsDiffer(c, n, i, j);
    }
    forall t: nat | t < n
      ensures t in Visited(c, n)
    {
      SlotReached(c, n, t);
    }
    forall t | t in Visited(c, n)
      ensures t < n
    {
      var k :| 0 <= k < n && Slot(c, n, k) == t;
    }
  }

  lemma SlotsDiffer(c: nat, n: nat, i: nat, j: nat)
    requires 0 <= i < j < n
    ensures Slot(c, n, i) != Slot(c, n, j)
  {
    var qi, qj := (c + i) / n, (c + j) / n;
    assert c + i == qi * n + Slot(c, n, i);
    assert c + j == qj * n + Slot(c, n, j);
    if Slot(c, n, i) == Slot(c, n, j) {
      assert (qj - qi) * n == j - i;
      OnlyZeroMultipleIsSmall(qj - qi, n, j - i);
    }
  }

  /** The only multiple of n strictly between -n and n is 0. */
  lemma OnlyZeroMultipleIsSmall(d: int, n: int, e: int)
    requires n > 0 && d * n == e && -n < e < n
    ensures d == 0 && e == 0
  {
  }

  lemma SlotReached(c: nat, n: nat, t: nat)
    requires t < n
    ensures t in Visited(c, n)
  {
    var qc, m := c / n, c % n;
    assert c == qc * n + m;
    if t >= m {
      SlotOf(c, n, t - m, qc, t);
      assert Slot(c, n, t - m) in Visited(c, n);
    } else {
      SlotOf(c, n, t - m + n, qc + 1, t);
      assert Slot(c, n, t - m + n) in Visited(c, n);
    }
  }

  /** If c + k == q * n + t with t in [0, n), the slot is t. */
  lemma SlotOf(c: nat, n: nat, k: nat, q: int, t: nat)
    requires n > 0 && t < n && c + k == q * n + t
    ensures Slot(c, n, k) == t
  {
    var q' := (c + k) / n;
    assert c + k == q' * n + Slot(c, n, k);
    assert (q - q') * n == Slot(c, n, k) - t;
    OnlyZeroMultipleIsSmall(q - q', n, Slot(c, n, k) - t);
  }

  /** The texture the k-th call of next() hands out, counting from 0, when the
      list is `ts` and the cursor starts at c: null on an empty list. */
  function Dealt(ts: seq<Texture>, c: nat, k: nat): (t: Option<Texture>)
    ensures t.None? <==> |ts| == 0
    ensures t.Some? ==> t.value in ts
  {
    if |ts| == 0 then None else Some(ts[Slot(c, |ts|, k)])
  }

  /** The cursor after k calls of next() from cursor c over `ts`: an empty
      list leaves it where it was. */
  function CursorAfter(ts: seq<Texture>, c: nat, k: nat): nat {
    if |ts| == 0 then c else c + k
  }

  /** Calls of next() compose: the call after k calls from c is the k-th
      call from c, and k then j calls move the cursor as k + j calls do. */
  lemma {:induction false} DealtInTurn(ts: seq<Texture>, c: nat, k: nat, j: nat)
    ensures Dealt(ts, CursorAfter(ts, c, k), j) == Dealt(ts, c, k + j)
    ensures CursorAfter(ts, CursorAfter(ts, c, k), j) == CursorAfter(ts, c, k + j)
  {
    if |ts| > 0 {
      assert Slot(CursorAfter(ts, c, k), |ts|, j) == Slot(c, |ts|, k + j);
    }
  }

  /** The call, among n consecutive calls of next() from cursor c, that
      reads slot t. */
  function TurnOf(c: nat, n: nat, t: nat): (k: nat)
    requires t < n
    ensures k < n && Slot(c, n, k) == t
  {
    var m := c % n;
    assert c == (c / n) * n + m;
    if t >= m then
      SlotOf(c, n, t - m, c / n, t);
      t - m
    else
      SlotOf(c, n, t - m + n, c / n + 1, t);
      t - m + n
  }

  /** |ts| consecutive calls of next() hand out every texture of the list,
      whatever the cursor: position i is handed out by call TurnOf(c, |ts|, i). */
  lemma DealsEveryTexture(ts: seq<Texture>, c: nat)
    ensures forall i :: 0 <= i < |ts| ==> TurnOf(c, |ts|, i) < |ts| && Dealt(ts, c, TurnOf(c, |ts|, i)) == Some(ts[i])
  {
  }

  /** The module's texture list and its round-robin cursor. */
  class TextureSet {
    var textures: seq<Texture>
    var cursor: nat

    constructor ()
      ensures textures == [] && cursor == 0
    {
      textures, cursor := [], 0;
    }

    /** next(): null on an empty list; otherwise the texture under the cursor,
        which then advances by one. */
    method Next() returns (t: Option<Texture>)
      modifies this
      ensures textures == old(textures)
      ensures |textures| == 0 ==> t == None && cursor == old(cursor)
      ensures |textures| > 0 ==> t == Some(textures[Slot(old(cursor), |textures|, 0)]) && cursor == old(cursor) + 1
      ensures t == Dealt(textures, old(cursor), 0) && cursor == CursorAfter(textures, old(cursor), 1)
    {
      if |textures| == 0 {
        return None;
      }
      t := Some(textures[cursor % |textures|]);
      cursor := cursor + 1;
    }

    /** count(). */
    method Count() returns (n: nat)
      ensures n == |textures|
    {
      n := |textures|;
    }

    /** The post-processing of load(items): the list the loaders appended to
        (the old textures followed by the non-null results, in the order the
        loads finished) is shuffled and becomes the new list. The cursor is not
        reset. `rs` are the shuffle's draws. */
    method Load(results: seq<Option<Texture>>, rs: seq<real>)
      requires |textures| + |Successes(results)| <= |rs| + 1 && Draws(rs)
      modifies this
      ensures textures == Shuffled(old(textures) + Successes(results), rs)
      ensures multiset(textures) == multiset(old(textures)) + multiset(Successes(results))
      ensures cursor == old(cursor)
    {
      var valid := textures + Successes(results);
      var a := new Texture[|valid|](k requires 0 <= k < |valid| => valid[k]);
      assert a[..] == valid;
      Shuffle(a, rs);
      textures := a[..];
      ShuffledIsPermutation(valid, rs);
    }
  }
}
