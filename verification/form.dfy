/**
 * The page's selection state and its click handlers: topics and adjectives are toggled
 * (at most three of each), the age demographic is a single choice.
 */
module Form {
  import opened Catalogue
  import opened Schema

  /** At most this many topics, and at most this many adjectives, can be picked. */
  const MaxPicks: nat := 3

  /** The two multi-choice facets of the page. */
  datatype Facet = TopicFacet | AdjectiveFacet

  /** The entries offered for a facet. */
  function Offered(facet: Facet): seq<string> {
    match facet
    case TopicFacet => YoutubeTopics
    case AdjectiveFacet => YoutubeAdjectives
  }

  /** The page's three pieces of selection state. */
  datatype Form = Form(topics: seq<string>, adjectives: seq<string>, demographic: string) {

    function Picks(facet: Facet): seq<string> {
      match facet
      case TopicFacet => topics
      case AdjectiveFacet => adjectives
    }

    function WithPicks(facet: Facet, s: seq<string>): Form {
      match facet
      case TopicFacet => this.(topics := s)
      case AdjectiveFacet => this.(adjectives := s)
    }

    /** The value the form hands to the submit handler. */
    function ToInput(): Input {
      Input(topics, adjectives, demographic)
    }
  }

  /** Every selection starts empty. */
  const Initial: Form := Form([], [], "")

  predicate NoDuplicates(s: seq<string>) {
    forall i, j :: 0 <= i < j < |s| ==> s[i] != s[j]
  }

  /** `s.filter(t => t !== x)`: every occurrence of `x` dropped, the rest in order. */
  function Without(s: seq<string>, x: string): (r: seq<string>)
    ensures forall y :: y in r <==> y in s && y != x
    ensures x !in s ==> r == s
    ensures x in s ==> |r| < |s|
  {
    if |s| == 0 then []
    else if s[0] == x then Without(s[1..], x)
    else [s[0]] + Without(s[1..], x)
  }

  /** Filtering distributes over concatenation. */
  lemma {:induction false} WithoutAppend(a: seq<string>, b: seq<string>, x: string)
    ensures Without(a + b, x) == Without(a, x) + Without(b, x)
  {
    if |a| > 0 {
      assert (a + b)[1..] == a[1..] + b;
      WithoutAppend(a[1..], b, x);
    } else {
      assert a + b == b;
    }
  }

  /** In a duplicate-free selection, removing an item closes the gap and keeps the others in order. */
  lemma {:induction false} WithoutAt(s: seq<string>, i: nat)
    requires NoDuplicates(s)
    requires i < |s|
    ensures Without(s, s[i]) == s[..i] + s[i + 1..]
  {
    if i == 0 {
      assert s[i] !in s[1..];
      assert s[1..] == s[..0] + s[1..];
    } else {
      assert s[0] != s[i];
      assert s[1..][i - 1] == s[i];
      WithoutAt(s[1..], i - 1);
      assert s[..i] == [s[0]] + s[1..][..i - 1];
      assert s[i + 1..] == s[1..][i..];
    }
  }

  /** The onClick handler of a topic or adjective button labelled `x`. */
  function Toggle(s: seq<string>, x: string): (r: seq<string>)
    ensures x in s ==> x !in r && forall y :: y != x ==> (y in r <==> y in s)
    ensures x !in s && |s| < MaxPicks ==> r == s + [x]
    ensures x !in s && |s| >= MaxPicks ==> r == s
  {
    if x in s then Without(s, x)
    else if |s| < MaxPicks then s + [x]
    else s
  }

  /** Clicking an item that was just added removes it again. */
  lemma ToggleUndo(s: seq<string>, x: string)
    requires x !in s && |s| < MaxPicks
    ensures Toggle(Toggle(s, x), x) == s
  {
    WithoutAppend(s, [x], x);
    assert Without([x], x) == [];
  }

  /** A click on one of the page's buttons. */
  datatype Click = FacetClick(facet: Facet, item: string) | DemographicClick(demographic: string)

  /** Buttons exist only for catalogue entries. */
  predicate OnPage(c: Click) {
    match c
    case FacetClick(facet, item) => item in Offered(facet)
    case DemographicClick(d) => d in YoutubeDemographics
  }

  /** The effect of one click; a click touches only its own facet. */
  function Step(f: Form, c: Click): (g: Form)
    ensures c.FacetClick? ==> g.Picks(c.facet) == Toggle(f.Picks(c.facet), c.item)
    ensures c.FacetClick? && c.facet == TopicFacet ==> g.adjectives == f.adjectives && g.demographic == f.demographic
    ensures c.FacetClick? && c.facet == AdjectiveFacet ==> g.topics == f.topics && g.demographic == f.demographic
    ensures c.DemographicClick? ==> g == Form(f.topics, f.adjectives, c.demographic)
  {
    match c
    case FacetClick(facet, item) => f.WithPicks(facet, Toggle(f.Picks(facet), item))
    case DemographicClick(d) => f.(demographic := d)
  }

  /** The state after a sequence of clicks, each handled after the previous one has rendered. */
  function Run(f: Form, cs: seq<Click>): Form
    decreases |cs|
  {
    if |cs| == 0 then f else Run(Step(f, cs[0]), cs[1..])
  }

  /**
   * Whatever the clicks, every selected topic or adjective was selected before or clicked, the
   * demographic is the old one or a clicked one, and a selection of at most three stays so.
   */
  lemma {:induction false} RunOrigins(f: Form, cs: seq<Click>)
    ensures forall x :: x in Run(f, cs).topics ==> x in f.topics || FacetClick(TopicFacet, x) in cs
    ensures forall x :: x in Run(f, cs).adjectives ==> x in f.adjectives || FacetClick(AdjectiveFacet, x) in cs
    ensures Run(f, cs).demographic == f.demographic || DemographicClick(Run(f, cs).demographic) in cs
    ensures |f.topics| <= MaxPicks ==> |Run(f, cs).topics| <= MaxPicks
    ensures |f.adjectives| <= MaxPicks ==> |Run(f, cs).adjectives| <= MaxPicks
    decreases |cs|
  {
    if |cs| > 0 {
      RunOrigins(Step(f, cs[0]), cs[1..]);
      assert forall c :: c in cs[1..] ==> c in cs;
    }
  }

  predicate AllOnPage(cs: seq<Click>) {
    forall i :: 0 <= i < |cs| ==> OnPage(cs[i])
  }

  /** A facet's selection: no repeats, at most three, all from the facet's catalogue. */
  predicate GoodPicks(s: seq<string>, offered: seq<string>) {
    && NoDuplicates(s)
    && |s| <= MaxPicks
    && forall i :: 0 <= i < |s| ==> s[i] in offered
  }

  /** What every reachable form satisfies. */
  predicate Inv(f: Form) {
    && GoodPicks(f.topics, YoutubeTopics)
    && GoodPicks(f.adjectives, YoutubeAdjectives)
    && (f.demographic == "" || f.demographic in YoutubeDemographics)
  }

  /** Filtering keeps a selection duplicate-free (and does not lengthen it). */
  lemma {:induction false} WithoutNoDuplicates(s: seq<string>, x: string)
    requires NoDuplicates(s)
    ensures NoDuplicates(Without(s, x))
  {
    if |s| > 0 {
      assert NoDuplicates(s[1..]) by {
        forall i, j | 0 <= i < j < |s[1..]| ensures s[1..][i] != s[1..][j] {
          assert s[1..][i] == s[i + 1] && s[1..][j] == s[j + 1];
        }
      }
      WithoutNoDuplicates(s[1..], x);
      if s[0] != x {
        assert s[0] !in s[1..];
        assert s[0] !in Without(s[1..], x);
      }
    }
  }

  /** Toggling an offered item keeps a facet's selection good. */
  lemma TogglePreservesGoodPicks(s: seq<string>, x: string, offered: seq<string>)
    requires GoodPicks(s, offered) && x in offered
    ensures GoodPicks(Toggle(s, x), offered)
  {
    var r := Toggle(s, x);
    if x in s {
      WithoutNoDuplicates(s, x);
      forall i | 0 <= i < |r| ensures r[i] in offered {
        assert r[i] in r;
      }
    }
  }

  /** One click on the page keeps the invariant. */
  lemma StepPreservesInv(f: Form, c: Click)
    requires Inv(f) && OnPage(c)
    ensures Inv(Step(f, c))
  {
    if c.FacetClick? {
      TogglePreservesGoodPicks(f.Picks(c.facet), c.item, Offered(c.facet));
    }
  }

  /** Any sequence of clicks on the page keeps the invariant. */
  lemma {:induction false} RunPreservesInv(f: Form, cs: seq<Click>)
    requires Inv(f) && AllOnPage(cs)
    ensures Inv(Run(f, cs))
    decreases |cs|
  {
    if |cs| > 0 {
      StepPreservesInv(f, cs[0]);
      RunPreservesInv(Step(f, cs[0]), cs[1..]);
    }
  }

  /** From the empty start every sequence of clicks keeps selections duplicate-free, at most three, from the catalogues. */
  lemma ReachableInv(cs: seq<Click>)
    requires AllOnPage(cs)
    ensures Inv(Run(Initial, cs))
  {
    RunPreservesInv(Initial, cs);
  }

  /** Handling clicks one after another. */
  lemma {:induction false} RunAppend(f: Form, a: seq<Click>, b: seq<Click>)
    ensures Run(f, a + b) == Run(Run(f, a), b)
    decreases |a|
  {
    if |a| > 0 {
      assert (a + b)[1..] == a[1..] + b;
      RunAppend(Step(f, a[0]), a[1..], b);
    } else {
      assert a + b == b;
    }
  }

  /** Clicking each of `xs` in a facet, in order. */
  function Clicks(facet: Facet, xs: seq<string>): (cs: seq<Click>)
    ensures |cs| == |xs|
    ensures forall i :: 0 <= i < |xs| ==> cs[i] == FacetClick(facet, xs[i])
  {
    seq(|xs|, i requires 0 <= i < |xs| => FacetClick(facet, xs[i]))
  }

  /** Clicking fresh items while room remains appends them in click order. */
  lemma {:induction false} RunClicks(f: Form, facet: Facet, xs: seq<string>)
    requires NoDuplicates(f.Picks(facet) + xs)
    requires |f.Picks(facet) + xs| <= MaxPicks
    ensures Run(f, Clicks(facet, xs)) == f.WithPicks(facet, f.Picks(facet) + xs)
    decreases |xs|
  {
    var s := f.Picks(facet);
    if |xs| == 0 {
      assert s + xs == s;
    } else {
      var cs := Clicks(facet, xs);
      assert xs[0] !in s by {
        forall i | 0 <= i < |s| ensures s[i] != xs[0] {
          assert (s + xs)[i] == s[i] && (s + xs)[|s|] == xs[0];
        }
      }
      var g := Step(f, cs[0]);
      assert g == f.WithPicks(facet, s + [xs[0]]);
      assert g.Picks(facet) + xs[1..] == s + xs;
      assert cs[1..] == Clicks(facet, xs[1..]);
      RunClicks(g, facet, xs[1..]);
    }
  }

  /** A sequence of clicks that reaches `f` from the start. */
  function ClicksTo(f: Form): seq<Click> {
    Clicks(TopicFacet, f.topics) + Clicks(AdjectiveFacet, f.adjectives)
      + (if f.demographic == "" then [] else [DemographicClick(f.demographic)])
  }

  /** Every form satisfying the invariant is reachable, so the invariant describes the reachable forms exactly. */
  lemma InvReachable(f: Form)
    requires Inv(f)
    ensures AllOnPage(ClicksTo(f))
    ensures Run(Initial, ClicksTo(f)) == f
  {
    ClicksToOnPage(f);
    ClicksToRun(f);
  }

  lemma ClicksToOnPage(f: Form)
    requires Inv(f)
    ensures AllOnPage(ClicksTo(f))
  {
  }

  lemma ClicksToRun(f: Form)
    requires NoDuplicates(f.topics) && |f.topics| <= MaxPicks
    requires NoDuplicates(f.adjectives) && |f.adjectives| <= MaxPicks
    ensures Run(Initial, ClicksTo(f)) == f
  {
    var a := Clicks(TopicFacet, f.topics);
    var b := Clicks(AdjectiveFacet, f.adjectives);
    var c: seq<Click> := if f.demographic == "" then [] else [DemographicClick(f.demographic)];
    var afterTopics := Form(f.topics, [], "");
    var afterAdjectives := Form(f.topics, f.adjectives, "");
    assert Run(Initial, a) == afterTopics by {
      assert [] + f.topics == f.topics;
      RunClicks(Initial, TopicFacet, f.topics);
    }
    assert Run(afterTopics, b) == afterAdjectives by {
      assert [] + f.adjectives == f.adjectives;
      RunClicks(afterTopics, AdjectiveFacet, f.adjectives);
    }
    assert Run(afterAdjectives, c) == f by {
      if f.demographic != "" {
        assert Run(afterAdjectives, c) == Run(Step(afterAdjectives, c[0]), []);
      }
    }
    assert ClicksTo(f) == a + b + c;
    RunAppend(Initial, a + b, c);
    RunAppend(Initial, a, b);
  }

  /** On a reachable form the schema accepts exactly when a topic, an adjective and a demographic are chosen. */
  lemma ReachableValid(f: Form)
    requires Inv(f)
    ensures Valid(f.ToInput()) <==> |f.topics| >= 1 && |f.adjectives| >= 1 && f.demographic != ""
  {
  }
}
