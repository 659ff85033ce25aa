/** The hero carousel of `src/pages/Home.jsx`: a cyclic slide index over the
    latest vehicles with next, previous and jump, the timer and control
    visibility rules, and the image/alt fallbacks of the current slide. */
module Carousel {
  import opened Wrappers
  import opened Domain

  const FallbackImage: string := "https://images.unsplash.com/photo-1503376780353-7e6692767b70?w=1920"
  const FallbackAlt: string := "Hero"

  /** JavaScript's `%` for a positive divisor: the sign follows the dividend. */
  function JsRem(a: int, n: int): (r: int)
    requires n > 0
    ensures a >= 0 ==> 0 <= r < n
    ensures a >= 0 ==> r == a % n
  {
    if a >= 0 then a % n else -((-a) % n)
  }

  /** `(prev + 1) % n`: the auto-slide step and `goToNext`. */
  function Next(i: int, n: int): (r: int)
    requires n > 0 && 0 <= i < n
    ensures 0 <= r < n
    ensures r == if i == n - 1 then 0 else i + 1
  {
    JsRem(i + 1, n)
  }

  /** `(prev - 1 + n) % n`: `goToPrevious`. */
  function Previous(i: int, n: int): (r: int)
    requires n > 0 && 0 <= i < n
    ensures 0 <= r < n
    ensures r == if i == 0 then n - 1 else i - 1
  {
    JsRem(i - 1 + n, n)
  }

  lemma NextThenPrevious(i: int, n: int)
    requires n > 0 && 0 <= i < n
    ensures Previous(Next(i, n), n) == i
    ensures Next(Previous(i, n), n) == i
  {
  }

  function Advance(i: int, n: int, k: nat): (r: int)
    requires n > 0 && 0 <= i < n
    ensures 0 <= r < n
  {
    if k == 0 then i else Next(Advance(i, n, k - 1), n)
  }

  lemma {:induction false} MulAtLeast(d: nat, n: int)
    requires d >= 1 && n > 0
    ensures d * n >= n
  {
    if d > 1 {
      MulAtLeast(d - 1, n);
      assert d * n == (d - 1) * n + n;
    }
  }

  /** Division with remainder determines the remainder. */
  lemma ModUnique(a: int, n: int, q: int, r: int)
    requires n > 0 && 0 <= r < n && a == q * n + r
    ensures a % n == r
  {
    var q0 := a / n;
    var r0 := a % n;
    assert a == q0 * n + r0;
    var d := q - q0;
    assert d * n == q * n - q0 * n;
    assert d * n == r0 - r;
    if d > 0 {
      MulAtLeast(d, n);
    } else if d < 0 {
      assert (-d) * n == r - r0;
      MulAtLeast(-d, n);
    }
  }

  lemma ModSucc(a: int, n: int)
    requires n > 0
    ensures (a + 1) % n == if a % n == n - 1 then 0 else a % n + 1
  {
    var q := a / n;
    var j := a % n;
    assert a == q * n + j;
    if j == n - 1 {
      assert (q + 1) * n == q * n + n;
      ModUnique(a + 1, n, q + 1, 0);
    } else {
      ModUnique(a + 1, n, q, j + 1);
    }
  }

  /** `k` timer ticks move the index `k` places round the cycle; `n` ticks return it. */
  lemma {:induction false} AdvanceIsAddition(i: int, n: int, k: nat)
    requires n > 0 && 0 <= i < n
    ensures Advance(i, n, k) == (i + k) % n
  {
    if k > 0 {
      AdvanceIsAddition(i, n, k - 1);
      ModSucc(i + k - 1, n);
    }
  }

  lemma FullCycle(i: int, n: int)
    requires n > 0 && 0 <= i < n
    ensures Advance(i, n, n) == i
  {
    AdvanceIsAddition(i, n, n);
    ModUnique(i + n, n, 1, i);
  }

  /** The interval is installed only when there is at least one slide. */
  predicate TimerRuns(slides: seq<Vehicle>) { |slides| != 0 }

  /** Arrows and dots are rendered only for more than one slide. */
  predicate ControlsShown(slides: seq<Vehicle>) { |slides| > 1 }

  /** The indices the dots pass to `goToSlide`, one per slide in order. */
  function DotTargets(n: nat): (ks: seq<int>)
    ensures |ks| == n
    ensures forall j :: 0 <= j < n ==> ks[j] == j
  {
    seq(n, j => j)
  }

  lemma DotsAreIndices(n: nat)
    ensures forall k :: k in DotTargets(n) <==> 0 <= k < n
  {
    forall k | k in DotTargets(n)
      ensures 0 <= k < n
    {
      var i :| 0 <= i < n && DotTargets(n)[i] == k;
    }
    forall k | 0 <= k < n
      ensures k in DotTargets(n)
    {
      assert DotTargets(n)[k] == k;
    }
  }

  /** A user or timer action on the carousel. */
  datatype Action = Tick | GoPrevious | GoNext | GoTo(k: int)

  /** Whether the rendered page can trigger the action at all: nothing on an
      empty list, only the timer for a single slide, and with more slides the
      arrows and one dot per slide index. */
  function Offered(a: Action, slides: seq<Vehicle>): (offered: bool)
    ensures |slides| == 0 ==> !offered
    ensures |slides| == 1 ==> (offered <==> a.Tick?)
    ensures |slides| > 1 && !a.GoTo? ==> offered
    ensures |slides| > 1 && a.GoTo? ==> (offered <==> 0 <= a.k < |slides|)
  {
    DotsAreIndices(|slides|);
    match a
    case Tick => TimerRuns(slides)
    case GoPrevious => ControlsShown(slides)
    case GoNext => ControlsShown(slides)
    case GoTo(k) => ControlsShown(slides) && k in DotTargets(|slides|)
  }

  function Step(i: int, a: Action, slides: seq<Vehicle>): (r: int)
    requires Offered(a, slides) && 0 <= i < |slides|
    ensures 0 <= r < |slides|
  {
    match a
    case Tick => Next(i, |slides|)
    case GoPrevious => Previous(i, |slides|)
    case GoNext => Next(i, |slides|)
    case GoTo(k) => k
  }

  /** Any run of offered actions from the initial index 0. */
  function Run(slides: seq<Vehicle>, actions: seq<Action>): (r: Option<int>)
    requires |slides| > 0
  {
    if |actions| == 0 then Some(0)
    else
      match Run(slides, actions[..|actions| - 1])
      case None => None
      case Some(i) =>
        var a := actions[|actions| - 1];
        if Offered(a, slides) && 0 <= i < |slides| then Some(Step(i, a, slides)) else None
  }

  /** Starting at 0, every offered action keeps the index inside the slide list. */
  lemma {:induction false} RunInRange(slides: seq<Vehicle>, actions: seq<Action>)
    requires |slides| > 0
    requires forall j :: 0 <= j < |actions| ==> Offered(actions[j], slides)
    ensures Run(slides, actions).Some?
    ensures 0 <= Run(slides, actions).value < |slides|
  {
    if |actions| > 0 {
      var init := actions[..|actions| - 1];
      assert forall j :: 0 <= j < |init| ==> init[j] == actions[j];
      RunInRange(slides, init);
    }
  }

  /** With a single slide only the timer runs, and it keeps the index at 0. */
  lemma {:induction false} SingleSlideStays(slides: seq<Vehicle>, actions: seq<Action>)
    requires |slides| == 1
    requires forall j :: 0 <= j < |actions| ==> Offered(actions[j], slides)
    ensures Run(slides, actions) == Some(0)
  {
    if |actions| > 0 {
      var init := actions[..|actions| - 1];
      assert forall j :: 0 <= j < |init| ==> init[j] == actions[j];
      SingleSlideStays(slides, init);
      assert actions[|actions| - 1].Tick?;
    }
  }

  /** `latestVehicles[currentIndex]`: undefined outside the list. */
  function CurrentSlide(slides: seq<Vehicle>, i: int): (r: Option<Vehicle>)
    ensures r.Some? <==> 0 <= i < |slides|
    ensures r.Some? ==> r.value == slides[i]
  {
    if 0 <= i < |slides| then Some(slides[i]) else None
  }

  /** `currentVehicle?.coverImage || fallback`. */
  function HeroImage(current: Option<Vehicle>): (src: string)
    ensures src != ""
    ensures current.Some? && current.value.coverImage != "" ==> src == current.value.coverImage
    ensures current.None? || current.value.coverImage == "" ==> src == FallbackImage
  {
    if current.Some? && current.value.coverImage != "" then current.value.coverImage else FallbackImage
  }

  /** `currentVehicle?.vehicleName || "Hero"`. */
  function HeroAlt(current: Option<Vehicle>): (alt: string)
    ensures alt != ""
    ensures current.Some? && current.value.vehicleName != "" ==> alt == current.value.vehicleName
    ensures current.None? || current.value.vehicleName == "" ==> alt == FallbackAlt
  {
    if current.Some? && current.value.vehicleName != "" then current.value.vehicleName else FallbackAlt
  }

  /** Along any offered run the hero shows the current slide's own image when it has one. */
  lemma HeroFollowsRun(slides: seq<Vehicle>, actions: seq<Action>)
    requires |slides| > 0
    requires forall j :: 0 <= j < |actions| ==> Offered(actions[j], slides)
    ensures Run(slides, actions).Some?
    ensures var i := Run(slides, actions).value;
            0 <= i < |slides| && slides[i].coverImage != "" ==> HeroImage(CurrentSlide(slides, i)) == slides[i].coverImage
  {
    RunInRange(slides, actions);
  }
}
