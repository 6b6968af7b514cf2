/** The DOM theme sink (src/theme/web/applyThemeToDom.ts).

    The resolved theme is recorded on the root element as one marker attribute:
    present with value "dark" for the dark theme, absent for the light theme, so that
    the light styles of the root apply by default. Without a window (server-side
    rendering) writing does nothing and reading gives the light theme. */
module DomTheme {

  import opened ThemeTypes

  /** The attribute the styles key the dark overrides on. */
  const ThemeAttribute: string := "data-mts-theme"

  /** The only attribute value that marks the dark theme. */
  const DarkAttributeValue: string := "dark"

  /** What the sink can see of the page: whether a window exists at all, and the
      attributes of the root element. */
  datatype Document = Document(hasWindow: bool, rootAttributes: map<string, string>)

  /** applyThemeToDom */
  function ApplyThemeToDom(doc: Document, theme: ResolvedTheme): (r: Document)
    ensures r.hasWindow == doc.hasWindow
    ensures !doc.hasWindow ==> r == doc
    ensures doc.hasWindow && theme == Dark ==>
              ThemeAttribute in r.rootAttributes && r.rootAttributes[ThemeAttribute] == DarkAttributeValue
    ensures doc.hasWindow && theme == Light ==> ThemeAttribute !in r.rootAttributes
    ensures r.rootAttributes - {ThemeAttribute} == doc.rootAttributes - {ThemeAttribute}
  {
    if !doc.hasWindow then doc
    else if theme == Dark then
      doc.(rootAttributes := doc.rootAttributes[ThemeAttribute := DarkAttributeValue])
    else
      doc.(rootAttributes := doc.rootAttributes - {ThemeAttribute})
  }

  /** getThemeFromDom */
  function GetThemeFromDom(doc: Document): (r: ResolvedTheme)
    ensures r == Dark <==>
              doc.hasWindow && ThemeAttribute in doc.rootAttributes
              && doc.rootAttributes[ThemeAttribute] == DarkAttributeValue
  {
    if !doc.hasWindow then Light
    else if ThemeAttribute in doc.rootAttributes && doc.rootAttributes[ThemeAttribute] == DarkAttributeValue then Dark
    else Light
  }

  /** Reading after writing gives back the theme written. */
  lemma ApplyThenGet(doc: Document, theme: ResolvedTheme)
    requires doc.hasWindow
    ensures GetThemeFromDom(ApplyThemeToDom(doc, theme)) == theme
  {
  }

  /** Writing the same theme twice has the effect of writing it once. */
  lemma ApplyIdempotent(doc: Document, theme: ResolvedTheme)
    ensures ApplyThemeToDom(ApplyThemeToDom(doc, theme), theme) == ApplyThemeToDom(doc, theme)
  {
  }

  /** Only the last write matters: the sink keeps no memory of earlier themes. */
  lemma ApplyLastWins(doc: Document, first: ResolvedTheme, second: ResolvedTheme)
    ensures ApplyThemeToDom(ApplyThemeToDom(doc, first), second) == ApplyThemeToDom(doc, second)
  {
  }

  /** Writing back what was read leaves a document unchanged when it is in one of the two
      states the sink itself produces. */
  lemma GetThenApply(doc: Document)
    requires doc.hasWindow
    requires ThemeAttribute in doc.rootAttributes ==> doc.rootAttributes[ThemeAttribute] == DarkAttributeValue
    ensures ApplyThemeToDom(doc, GetThemeFromDom(doc)) == doc
  {
  }
}
