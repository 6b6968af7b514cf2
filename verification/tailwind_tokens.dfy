/** The token transforms of the utility-class configuration generator
    (scripts/generate-tailwind-config.ts) over the token shapes of src/tokens/types.ts.

    Token scales are records from key to a pixel count. The generator turns them into CSS
    lengths: spacing, font sizes and radii become rem (16px = 1rem), breakpoints stay px,
    and the `full` radius is pinned to 9999px. Lengths are kept as exact numbers: a rem
    value is the rational px/16, not a formatted float. */
module TailwindTokens {

  /** The browser's root font size: one rem is this many px. */
  const PxPerRem: int := 16

  /** The radius key that means "fully rounded". */
  const FullRadiusKey: string := "full"

  /** The px length the `full` radius is written as, whatever its token value. */
  const FullRadiusPx: int := 9999

  /** The line height every generated font size carries. */
  const FontLineHeight: string := "1.5"

  /** A CSS length as the generator writes it: `<x>rem` or `<n>px`. */
  datatype CssLength = Rem(rem: real) | Px(px: int)

  /** The length in px that a CSS length denotes. */
  function PxOf(l: CssLength): real {
    match l
    case Rem(x) => x * PxPerRem as real
    case Px(n) => n as real
  }

  datatype FontSizeEntry = FontSizeEntry(size: CssLength, lineHeight: string)

  datatype ShadowOffset = ShadowOffset(width: real, height: real)

  /** The React Native form of a shadow. */
  datatype ShadowRN = ShadowRN(
    shadowColor: string,
    shadowOffset: ShadowOffset,
    shadowOpacity: real,
    shadowRadius: real,
    elevation: real)

  /** A shadow token: its CSS `box-shadow` string and its React Native form. */
  datatype ShadowDefinition = ShadowDefinition(web: string, rn: ShadowRN)

  datatype Typography = Typography(
    fontFamilySans: string,
    fontSize: map<string, int>,
    fontWeight: map<string, string>)

  /** All token categories. Colour palettes map a palette name to a scale of shade to colour. */
  datatype DesignTokens = DesignTokens(
    colors: map<string, map<string, string>>,
    spacing: map<string, int>,
    typography: Typography,
    shadows: map<string, ShadowDefinition>,
    breakpoints: map<string, int>,
    borderRadius: map<string, int>,
    zIndex: map<string, int>)

  /** pxToRem */
  function PxToRem(px: int): (r: CssLength)
    ensures r.Rem?
    ensures PxOf(r) == px as real
  {
    Rem(px as real / PxPerRem as real)
  }

  /** 16px is exactly 1rem. */
  lemma SixteenPxIsOneRem()
    ensures PxToRem(16) == Rem(1.0)
  {
  }

  /** The conversion keeps the order of a scale: a larger px token is a larger rem length,
      and distinct tokens stay distinct. */
  lemma PxToRemMonotone(a: int, b: int)
    ensures a < b <==> PxToRem(a).rem < PxToRem(b).rem
    ensures a == b <==> PxToRem(a) == PxToRem(b)
  {
  }

  /** transformSpacing: every spacing key, converted to rem. */
  function TransformSpacing(spacing: map<string, int>): (r: map<string, CssLength>)
    ensures r.Keys == spacing.Keys
    ensures forall k :: k in r ==> r[k].Rem? && PxOf(r[k]) == spacing[k] as real
  {
    map k | k in spacing :: PxToRem(spacing[k])
  }

  /** transformFontSize: every font size, converted to rem and paired with line height 1.5. */
  function TransformFontSize(fontSize: map<string, int>): (r: map<string, FontSizeEntry>)
    ensures r.Keys == fontSize.Keys
    ensures forall k :: k in r ==>
              r[k].size.Rem? && PxOf(r[k].size) == fontSize[k] as real && r[k].lineHeight == FontLineHeight
  {
    map k | k in fontSize :: FontSizeEntry(PxToRem(fontSize[k]), FontLineHeight)
  }

  /** transformBreakpoints: every breakpoint, kept in px. */
  function TransformBreakpoints(breakpoints: map<string, int>): (r: map<string, CssLength>)
    ensures r.Keys == breakpoints.Keys
    ensures forall k :: k in r ==> r[k].Px? && PxOf(r[k]) == breakpoints[k] as real
  {
    map k | k in breakpoints :: Px(breakpoints[k])
  }

  /** transformBorderRadius: `full` is 9999px whatever its token says; every other radius
      is converted to rem. */
  function TransformBorderRadius(borderRadius: map<string, int>): (r: map<string, CssLength>)
    ensures r.Keys == borderRadius.Keys
    ensures FullRadiusKey in r ==> r[FullRadiusKey] == Px(FullRadiusPx)
    ensures forall k :: k in r && k != FullRadiusKey ==> r[k].Rem? && PxOf(r[k]) == borderRadius[k] as real
  {
    map k | k in borderRadius :: if k == FullRadiusKey then Px(FullRadiusPx) else PxToRem(borderRadius[k])
  }

  /** The `full` token's own value never reaches the output. */
  lemma BorderRadiusIgnoresFullValue(borderRadius: map<string, int>, a: int, b: int)
    ensures TransformBorderRadius(borderRadius[FullRadiusKey := a])
         == TransformBorderRadius(borderRadius[FullRadiusKey := b])
  {
  }

  /** Every radius except `full` can be read back as its px token. */
  lemma BorderRadiusRoundTrip(borderRadius: map<string, int>)
    ensures var r := TransformBorderRadius(borderRadius);
            (map k | k in r && k != FullRadiusKey :: PxOf(r[k]))
            == (map k | k in borderRadius && k != FullRadiusKey :: borderRadius[k] as real)
  {
  }

  /** transformShadows: only the CSS string of each shadow; the React Native form is dropped. */
  function TransformShadows(shadows: map<string, ShadowDefinition>): (r: map<string, string>)
    ensures r.Keys == shadows.Keys
    ensures forall k :: k in r ==> r[k] == shadows[k].web
  {
    map k | k in shadows :: shadows[k].web
  }

  /** generateTokensJSON: every category passes through; each shadow is rebuilt from its
      `web` and `rn` parts. */
  function GenerateTokensJSON(tokens: DesignTokens): (r: DesignTokens)
    ensures r.shadows.Keys == tokens.shadows.Keys
    ensures forall k :: k in r.shadows ==>
              r.shadows[k].web == tokens.shadows[k].web && r.shadows[k].rn == tokens.shadows[k].rn
    ensures r.(shadows := tokens.shadows) == tokens
  {
    tokens.(shadows := map k | k in tokens.shadows :: ShadowDefinition(tokens.shadows[k].web, tokens.shadows[k].rn))
  }

  /** The token JSON loses nothing: it is the token set itself. */
  lemma GenerateTokensJSONLossless(tokens: DesignTokens)
    ensures GenerateTokensJSON(tokens) == tokens
  {
  }

  /** The web shadow strings of the configuration are the web parts of the token JSON. */
  lemma ShadowsAgreeWithTokensJSON(tokens: DesignTokens)
    ensures TransformShadows(GenerateTokensJSON(tokens).shadows) == TransformShadows(tokens.shadows)
  {
  }

  /** The spacing scale of the configuration is the token scale read in rem: reading every
      length back in px gives the token scale. */
  lemma SpacingRoundTrip(spacing: map<string, int>)
    ensures var r := TransformSpacing(spacing);
            (map k | k in r :: PxOf(r[k])) == (map k | k in spacing :: spacing[k] as real)
  {
  }

  /** The font sizes of the configuration read back in px as the token sizes, and all
      share one line height. */
  lemma FontSizeRoundTrip(fontSize: map<string, int>)
    ensures var r := TransformFontSize(fontSize);
            && (map k | k in r :: PxOf(r[k].size)) == (map k | k in fontSize :: fontSize[k] as real)
            && (forall k, j :: k in r && j in r ==> r[k].lineHeight == r[j].lineHeight)
  {
  }

  /** The breakpoints of the configuration read back as the token breakpoints. */
  lemma BreakpointsRoundTrip(breakpoints: map<string, int>)
    ensures var r := TransformBreakpoints(breakpoints);
            (map k | k in r :: r[k].px) == breakpoints
  {
  }

  /** The font sizes of the repository's typography tokens. */
  lemma FontSizeExample()
    ensures var r := TransformFontSize(map["xs" := 12, "base" := 16, "4xl" := 36]);
            r["xs"] == FontSizeEntry(Rem(0.75), "1.5")
            && r["base"] == FontSizeEntry(Rem(1.0), "1.5")
            && r["4xl"] == FontSizeEntry(Rem(2.25), "1.5")
  {
  }
}
