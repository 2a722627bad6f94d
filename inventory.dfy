/**
 * `ClientPreset`: a named device preset (user-agent pattern plus viewport
 * bounds) and the predicate deciding whether a client variant satisfies it.
 */
module Inventory {

  import opened Wrappers
  import opened Text

  /** The three values of a client variant that `matches` reads. */
  datatype Variant = Variant(userAgent: Option<string>, widthPixels: int, heightPixels: int)

  /** A snapshot of every field of a preset; `null` is `None`. */
  datatype PresetState = PresetState(
    id: Option<int>,
    name: Option<string>,
    agentLike: Option<string>,
    minWidth: int,
    maxWidth: int,
    minHeight: int,
    maxHeight: int,
    initialFlowId: Option<string>)

  /**
   * The agent part of the match: both strings present and the lower-cased
   * user agent contains the lower-cased pattern.
   */
  function AgentMatch(agentLike: Option<string>, userAgent: Option<string>): (r: bool)
    ensures r ==> agentLike.Some? && userAgent.Some?
    ensures r ==> |agentLike.value| <= |userAgent.value|
  {
    agentLike.Some? && userAgent.Some? && Contains(ToLower(userAgent.value), ToLower(agentLike.value))
  }

  /** An empty pattern matches every present user agent. */
  lemma EmptyPatternMatchesAnyAgent(userAgent: Option<string>)
    requires userAgent.Some?
    ensures AgentMatch(Some(""), userAgent)
  {
  }

  /** The agent match is blind to the case of ASCII letters on either side. */
  lemma AgentMatchIgnoresCase(a: string, a': string, u: string, u': string)
    requires SameIgnoringCase(a, a') && SameIgnoringCase(u, u')
    ensures AgentMatch(Some(a), Some(u)) == AgentMatch(Some(a'), Some(u'))
  {
    SameIgnoringCaseIffLowerEqual(a, a');
    SameIgnoringCaseIffLowerEqual(u, u');
  }

  /**
   * A user agent that embeds the pattern anywhere, in any letter case,
   * gives an agent match.
   */
  lemma AgentMatchEmbedded(a: string, x: string, a': string, y: string)
    requires SameIgnoringCase(a, a')
    ensures AgentMatch(Some(a), Some(x + a' + y))
  {
    SameIgnoringCaseIffLowerEqual(a, a');
    ToLowerAppend(x + a', y);
    ToLowerAppend(x, a');
    ContainsEmbedded(ToLower(x), ToLower(a), ToLower(y));
  }

  /** The agent match holds exactly when the folded pattern occurs at some index of the folded agent. */
  lemma AgentMatchIffOccurs(a: string, u: string)
    ensures AgentMatch(Some(a), Some(u)) <==> exists i :: OccursAt(ToLower(u), ToLower(a), i)
  {
    assert AgentMatch(Some(a), Some(u)) == Contains(ToLower(u), ToLower(a));
    ContainsIffOccurs(ToLower(u), ToLower(a));
  }

  class ClientPreset {
    var id: Option<int>
    var name: Option<string>
    var agentLike: Option<string>
    var minWidth: int
    var maxWidth: int
    var minHeight: int
    var maxHeight: int
    var initialFlowId: Option<string>

    /** Every field of the preset, as one value. */
    function State(): PresetState
      reads this
    {
      PresetState(id, name, agentLike, minWidth, maxWidth, minHeight, maxHeight, initialFlowId)
    }

    /** At least one of the four bounds is positive, i.e. constrains the viewport. */
    predicate HasBounds()
      reads this
    {
      minWidth > 0 || minHeight > 0 || maxWidth > 0 || maxHeight > 0
    }

    /** Each positive bound is respected by the given width and height. */
    predicate WithinBounds(width: int, height: int)
      reads this
    {
      (minWidth > 0 ==> minWidth <= width) && (maxWidth > 0 ==> width <= maxWidth) &&
      (minHeight > 0 ==> minHeight <= height) && (maxHeight > 0 ==> height <= maxHeight)
    }

    /** The default constructor: every reference field `null`, every bound 0. */
    constructor ()
      ensures State() == PresetState(None, None, None, 0, 0, 0, 0, None)
    {
      id, name, agentLike, initialFlowId := None, None, None, None;
      minWidth, maxWidth, minHeight, maxHeight := 0, 0, 0, 0;
    }

    /** `ClientPreset(id, name, agentLike)`: the bounds keep their default 0. */
    constructor WithAgent(id: Option<int>, name: Option<string>, agentLike: Option<string>)
      ensures State() == PresetState(id, name, agentLike, 0, 0, 0, 0, None)
      ensures !HasBounds()
    {
      this.id, this.name, this.agentLike, this.initialFlowId := id, name, agentLike, None;
      minWidth, maxWidth, minHeight, maxHeight := 0, 0, 0, 0;
    }

    /** `ClientPreset(id, name, agentLike, minWidth, maxWidth, minHeight, maxHeight)`: every argument stored. */
    constructor WithBounds(id: Option<int>, name: Option<string>, agentLike: Option<string>,
                           minWidth: int, maxWidth: int, minHeight: int, maxHeight: int)
      ensures State() == PresetState(id, name, agentLike, minWidth, maxWidth, minHeight, maxHeight, None)
    {
      this.id, this.name, this.agentLike, this.initialFlowId := id, name, agentLike, None;
      this.minWidth, this.maxWidth, this.minHeight, this.maxHeight := minWidth, maxWidth, minHeight, maxHeight;
    }

    method SetId(id: Option<int>)
      modifies this
      ensures State() == old(State()).(id := id)
    {
      this.id := id;
    }

    method SetName(name: Option<string>)
      modifies this
      ensures State() == old(State()).(name := name)
    {
      this.name := name;
    }

    method SetAgentLike(agentLike: Option<string>)
      modifies this
      ensures State() == old(State()).(agentLike := agentLike)
    {
      this.agentLike := agentLike;
    }

    method SetMinWidth(minWidth: int)
      modifies this
      ensures State() == old(State()).(minWidth := minWidth)
    {
      this.minWidth := minWidth;
    }

    method SetMaxWidth(maxWidth: int)
      modifies this
      ensures State() == old(State()).(maxWidth := maxWidth)
    {
      this.maxWidth := maxWidth;
    }

    method SetMinHeight(minHeight: int)
      modifies this
      ensures State() == old(State()).(minHeight := minHeight)
    {
      this.minHeight := minHeight;
    }

    method SetMaxHeight(maxHeight: int)
      modifies this
      ensures State() == old(State()).(maxHeight := maxHeight)
    {
      this.maxHeight := maxHeight;
    }

    method SetInitialFlowId(initialFlowId: Option<string>)
      modifies this
      ensures State() == old(State()).(initialFlowId := initialFlowId)
    {
      this.initialFlowId := initialFlowId;
    }

    /**
     * `matches(variant)`: the agent must match; when the preset has any
     * bound, the variant must also report a positive width and height that
     * respect every positive bound.
     */
    function Matches(variant: Variant): (r: bool)
      reads this
      // the agent match is always necessary
      ensures r ==> agentLike.Some? && variant.userAgent.Some?
      ensures r ==> Contains(ToLower(variant.userAgent.value), ToLower(agentLike.value))
      // without bounds, the agent match decides alone, whatever the dimensions
      ensures !HasBounds() ==> r == AgentMatch(agentLike, variant.userAgent)
      // with bounds, a variant lacking a positive width or height never matches
      ensures HasBounds() && (variant.widthPixels <= 0 || variant.heightPixels <= 0) ==> !r
      // every positive bound holds of a matching variant
      ensures r && minWidth > 0 ==> minWidth <= variant.widthPixels
      ensures r && maxWidth > 0 ==> variant.widthPixels <= maxWidth
      ensures r && minHeight > 0 ==> minHeight <= variant.heightPixels
      ensures r && maxHeight > 0 ==> variant.heightPixels <= maxHeight
      // and conversely these conditions together are enough
      ensures (AgentMatch(agentLike, variant.userAgent) &&
               (HasBounds() ==> variant.widthPixels > 0 && variant.heightPixels > 0 &&
                                WithinBounds(variant.widthPixels, variant.heightPixels))) ==> r
    {
      var agentMatch := AgentMatch(agentLike, variant.userAgent);
      var haveVariantDimensions := variant.widthPixels > 0 && variant.heightPixels > 0;
      var havePresetMinDimensions := minWidth > 0 || minHeight > 0;
      var havePresetMaxDimensions := maxWidth > 0 || maxHeight > 0;
      if !havePresetMinDimensions && !havePresetMaxDimensions then
        agentMatch
      else if !haveVariantDimensions then
        false
      else
        var minHeightOk := !(minHeight > 0 && variant.heightPixels < minHeight);
        var maxHeightOk := !(maxHeight > 0 && variant.heightPixels > maxHeight);
        var minWidthOk := !(minWidth > 0 && variant.widthPixels < minWidth);
        var maxWidthOk := !(maxWidth > 0 && variant.widthPixels > maxWidth);
        agentMatch && minHeightOk && maxHeightOk && minWidthOk && maxWidthOk
    }
  }

  /** With no positive bound, zero or negative dimensions do not matter. */
  lemma DimensionsIrrelevantWithoutBounds(p: ClientPreset, v: Variant, width: int, height: int)
    requires !p.HasBounds()
    ensures p.Matches(v) == p.Matches(Variant(v.userAgent, width, height))
  {
  }

  /** A preset with an empty pattern and no bounds matches every variant that has a user agent. */
  lemma EmptyPatternMatchesAnyVariant(p: ClientPreset, v: Variant)
    requires p.agentLike == Some("") && !p.HasBounds()
    requires v.userAgent.Some?
    ensures p.Matches(v)
  {
  }

  /**
   * Changing the case of ASCII letters in the pattern or in the user agent
   * does not change the verdict, bounds and dimensions being equal.
   */
  lemma MatchesIgnoresCase(p: ClientPreset, q: ClientPreset, v: Variant, w: Variant)
    requires p.agentLike.Some? && q.agentLike.Some? && SameIgnoringCase(p.agentLike.value, q.agentLike.value)
    requires v.userAgent.Some? && w.userAgent.Some? && SameIgnoringCase(v.userAgent.value, w.userAgent.value)
    requires p.minWidth == q.minWidth && p.maxWidth == q.maxWidth
    requires p.minHeight == q.minHeight && p.maxHeight == q.maxHeight
    requires v.widthPixels == w.widthPixels && v.heightPixels == w.heightPixels
    ensures p.Matches(v) == q.Matches(w)
  {
    AgentMatchIgnoresCase(p.agentLike.value, q.agentLike.value, v.userAgent.value, w.userAgent.value);
  }

  /** Upper-casing the user agent never turns a match into a non-match or back. */
  lemma MatchesUpperCasedAgent(p: ClientPreset, ua: string, width: int, height: int)
    ensures p.Matches(Variant(Some(ua), width, height)) == p.Matches(Variant(Some(ToUpper(ua)), width, height))
  {
    UpperIsSameIgnoringCase(ua);
    if p.agentLike.Some? {
      MatchesIgnoresCase(p, p, Variant(Some(ua), width, height), Variant(Some(ToUpper(ua)), width, height));
    }
  }

  /** Agent-only preset: "chrome" matches "Mozilla Chrome/1" even at 0 x 0, the pattern sitting past index 0. */
  lemma ExampleAgentOnly(p: ClientPreset)
    requires p.agentLike == Some("chrome") && !p.HasBounds()
    ensures p.Matches(Variant(Some("Mozilla Chrome/1"), 0, 0))
  {
    assert SameIgnoringCase("chrome", "Chrome");
    AgentMatchEmbedded("chrome", "Mozilla ", "Chrome", "/1");
    assert "Mozilla " + "Chrome" + "/1" == "Mozilla Chrome/1";
  }

  /** A preset with a minimum width rejects a variant reporting no dimensions. */
  lemma ExampleMissingDimensions(p: ClientPreset)
    requires p.agentLike == Some("chrome") && p.minWidth == 320
    ensures !p.Matches(Variant(Some("Chrome"), 0, 0))
  {
  }

  /** Width inside [320, 768] with an unconstrained height matches. */
  lemma ExampleWidthInRange(p: ClientPreset)
    requires p.agentLike == Some("chrome")
    requires p.minWidth == 320 && p.maxWidth == 768 && p.minHeight == 0 && p.maxHeight == 0
    ensures p.Matches(Variant(Some("Chrome"), 500, 800))
  {
    assert StartsWith(ToLower("Chrome"), ToLower("chrome"));
  }

  /** A mismatching agent loses even when the dimensions pass. */
  lemma ExampleAgentMismatch(p: ClientPreset)
    requires p.agentLike == Some("firefox")
    requires p.minWidth == 320 && p.maxWidth == 768 && p.minHeight == 0 && p.maxHeight == 0
    ensures !p.Matches(Variant(Some("Chrome"), 500, 800))
  {
  }
}
