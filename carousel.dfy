/** components/projects.tsx: the project carousel. One `index` into the list of
    projects is moved by the Previous and Next buttons, by the pagination dots
    and by the auto-slide interval; it decides the strip's pixel offset and
    which dot is lit. */
module Carousel {

  datatype Project = Project(title: string, technologies: seq<string>)

  /** The six projects of lines 16-67 (descriptions and images left out). */
  const Catalogue: seq<Project> := [
    Project("Stellar dapps", ["Rust", "Soroban"]),
    Project("Product Authenticity", ["EVM", "Solidity", "Polygon"]),
    Project("Data Science and Machine Learning",
            ["Python", "scikit-learn", "Numpy", "Pandas", "R", "Plotly", "shiny"]),
    Project("Crypto Portfolio Tracker", ["React", "Node.js", "Express", "CoinGecko API"]),
    Project("E-commerce Website", ["Next.js", "Tailwind CSS", "Stripe"]),
    Project("Real-time Chat Application", ["Socket.IO", "MongoDB", "Express"])
  ]

  const ProjectsPerPage := 3
  /** Pixels from one card's left edge to the next card's (the card plus its margin). */
  const CardWidth := 320

  /** `Math.trunc(a / n)`: the quotient rounded toward zero. */
  function JsQuotient(a: int, n: int): int
    requires n > 0
  {
    if a >= 0 then a / n else -((-a) / n)
  }

  /** JavaScript's `a % n`: the remainder of division truncated toward zero,
      which takes the sign of a. */
  function JsRemainder(a: int, n: int): (r: int)
    requires n > 0
    ensures -n < r < n
    ensures a > 0 ==> r >= 0
    ensures a < 0 ==> r <= 0
    ensures a == JsQuotient(a, n) * n + r
  {
    if a >= 0 then a % n else -((-a) % n)
  }

  lemma MulMono(x: int, y: int, n: int)
    requires x <= y && n > 0
    ensures x * n <= y * n
  {
  }

  /** Quotient and remainder are the only pair with a == q * n + r and 0 <= r < n. */
  lemma ModUnique(a: int, n: int, q: int, r: int)
    requires n > 0 && a == q * n + r && 0 <= r < n
    ensures a % n == r && a / n == q
  {
    var d := a / n - q;
    assert d * n == r - a % n;
    if d > 0 {
      MulMono(1, d, n);
    } else if d < 0 {
      MulMono(d, -1, n);
    }
  }

  /** Below 2n, taking the remainder subtracts n at most once. */
  lemma ModBelowTwice(a: int, n: int)
    requires n > 0
    ensures 0 <= a < 2 * n ==> a % n == if a < n then a else a - n
  {
    if 0 <= a < n {
      ModUnique(a, n, 0, a);
    } else if n <= a < 2 * n {
      ModUnique(a, n, 1, a - n);
    }
  }

  /** The updater of `handleNext`: `(prev + 1) % projects.length`. */
  function Next(prev: int, n: int): (r: int)
    requires n > 0
    ensures 0 <= prev < n ==> 0 <= r < n && r == (if prev == n - 1 then 0 else prev + 1)
  {
    ModBelowTwice(prev + 1, n);
    JsRemainder(prev + 1, n)
  }

  /** The updater of `handlePrev`: `(prev - 1 + projects.length) % projects.length`. */
  function Prev(prev: int, n: int): (r: int)
    requires n > 0
    ensures 0 <= prev < n ==> 0 <= r < n && r == (if prev == 0 then n - 1 else prev - 1)
  {
    ModBelowTwice(prev - 1 + n, n);
    JsRemainder(prev - 1 + n, n)
  }

  /** Adding n before taking the remainder keeps the dividend of `handlePrev`
      non-negative, so the truncating remainder never yields a negative index. */
  lemma PrevDividendNonNegative(prev: int, n: int)
    requires n > 0 && prev >= 0
    ensures prev - 1 + n >= 0 && Prev(prev, n) >= 0
  {
  }

  /** Previous undoes Next. */
  lemma PrevAfterNext(i: int, n: int)
    requires 0 <= i < n
    ensures Prev(Next(i, n), n) == i
  {
  }

  /** Next undoes Previous. */
  lemma NextAfterPrev(i: int, n: int)
    requires 0 <= i < n
    ensures Next(Prev(i, n), n) == i
  {
  }

  /** The index after k Next steps (button presses or auto-slide ticks). */
  function Advance(i: int, k: nat, n: int): (r: int)
    requires n > 0
    ensures 0 <= i < n ==> 0 <= r < n
  {
    if k == 0 then i else Next(Advance(i, k - 1, n), n)
  }

  /** One Next step from a mod n gives a + 1 mod n. */
  lemma NextOfRemainder(a: int, n: int)
    requires n > 0 && a >= 0
    ensures Next(a % n, n) == (a + 1) % n
  {
    var q, j := a / n, a % n;
    assert a == q * n + j;
    if j == n - 1 {
      assert a + 1 == q * n + n;
      assert q * n + n == (q + 1) * n;
      ModUnique(a + 1, n, q + 1, 0);
    } else {
      ModUnique(a + 1, n, q, j + 1);
    }
  }

  /** k Next steps from i land on (i + k) mod n. */
  lemma {:induction false} AdvanceIsRemainder(i: int, k: nat, n: int)
    requires 0 <= i < n
    ensures Advance(i, k, n) == (i + k) % n
  {
    if k == 0 {
      ModUnique(i, n, 0, i);
    } else {
      AdvanceIsRemainder(i, k - 1, n);
      NextOfRemainder(i + k - 1, n);
    }
  }

  /** n Next steps bring the carousel back to where it started. */
  lemma FullCycle(i: int, n: int)
    requires 0 <= i < n
    ensures Advance(i, n, n) == i
  {
    AdvanceIsRemainder(i, n, n);
    ModUnique(i + n, n, 1, i);
  }

  /** `extendedProjects = [...projects, ...projects]`. */
  function Doubled(ps: seq<Project>): (strip: seq<Project>)
    ensures |strip| == 2 * |ps|
  {
    ps + ps
  }

  /** Card k of the strip shows project k mod n. */
  lemma DoubledShowsRemainder(ps: seq<Project>, k: int)
    requires 0 <= k < 2 * |ps|
    ensures Doubled(ps)[k] == ps[k % |ps|]
  {
    ModBelowTwice(k, |ps|);
  }

  /** The `x` the sliding strip is animated to: `-index * cardWidth`. */
  function Offset(index: int): (x: int)
    ensures index >= 0 ==> x <= 0
  {
    -index * CardWidth
  }

  /** Where card k's left edge falls in the viewport once the strip is moved by
      the offset of index. */
  function CardLeft(k: int, index: int): int
  {
    k * CardWidth + Offset(index)
  }

  /** The viewport is `projectsPerPage * cardWidth` wide; card k lies wholly in
      it exactly when it is one of the three cards starting at index. */
  lemma CardVisibleIff(k: int, index: int)
    ensures (0 <= CardLeft(k, index) && CardLeft(k, index) + CardWidth <= ProjectsPerPage * CardWidth)
            <==> index <= k < index + ProjectsPerPage
  {
    assert CardLeft(k, index) == (k - index) * CardWidth;
  }

  /** The three cards shown at index, read off the doubled strip. */
  function Window(ps: seq<Project>, index: int): (w: seq<Project>)
    requires |ps| >= 2 && 0 <= index < |ps|
    ensures |w| == ProjectsPerPage
  {
    WindowInsideStrip(|ps|, index);
    Doubled(ps)[index..index + ProjectsPerPage]
  }

  /** The j-th card shown at index is project (index + j) mod n: the carousel
      wraps from the last project to the first. */
  lemma WindowWraps(ps: seq<Project>, index: int, j: int)
    requires |ps| >= 2 && 0 <= index < |ps| && 0 <= j < ProjectsPerPage
    ensures Window(ps, index)[j] == ps[(index + j) % |ps|]
  {
    DoubledShowsRemainder(ps, index + j);
  }

  /** Whatever the index, the window of three cards stays inside the strip of
      2n cards, as long as there are at least two projects. */
  lemma WindowInsideStrip(n: int, index: int)
    requires n >= 2 && 0 <= index < n
    ensures index + ProjectsPerPage <= 2 * n
  {
  }

  /** The pagination dots: dot i is lit when `i === index`. */
  function Dots(n: nat, index: int): (lit: seq<bool>)
    ensures |lit| == n
  {
    seq(n, i => i == index)
  }

  /** For an index in range exactly one dot is lit, and it is the index's own. */
  lemma ExactlyOneDotLit(n: nat, index: int)
    requires 0 <= index < n
    ensures Dots(n, index)[index]
    ensures forall i :: 0 <= i < n && Dots(n, index)[i] ==> i == index
  {
  }

  /** The carousel's React state. */
  class ProjectCarousel {
    const projects: seq<Project>
    var index: int

    ghost predicate Valid()
      reads this
    {
      |projects| >= 2 && 0 <= index < |projects|
    }

    /** `useState(0)` over the six projects. */
    constructor ()
      ensures Valid() && projects == Catalogue && index == 0
    {
      projects := Catalogue;
      index := 0;
    }

    /** The `x` the strip is at. */
    function StripOffset(): (x: int)
      requires Valid()
      reads this
      ensures -(|projects| - 1) * CardWidth <= x <= 0
    {
      Offset(index)
    }

    /** The Next button. */
    method HandleNext()
      requires Valid()
      modifies this
      ensures Valid() && index == Next(old(index), |projects|)
    {
      index := Next(index, |projects|);
    }

    /** The Previous button. */
    method HandlePrev()
      requires Valid()
      modifies this
      ensures Valid() && index == Prev(old(index), |projects|)
    {
      PrevDividendNonNegative(index, |projects|);
      index := Prev(index, |projects|);
    }

    /** The pagination dot i, one of which is rendered per project. */
    method GoTo(i: int)
      requires Valid() && 0 <= i < |projects|
      modifies this
      ensures Valid() && index == i
      ensures Dots(|projects|, index)[i]
    {
      index := i;
    }

    /** One firing of the five-second interval: `handleNext()`. */
    method Tick()
      requires Valid()
      modifies this
      ensures Valid() && index == Next(old(index), |projects|)
    {
      HandleNext();
    }
  }
}
