/** The button component: the class string, disabled flag and content it renders for its
    props, built from fixed style tables. Rendering to markup is not modelled; the outputs
    are data. */
module Buttons {
  import opened Wrappers
  import opened React

  datatype Variant = Primary | Secondary | Danger | Success | Outline | Ghost
  datatype Size = Sm | Md | Lg
  datatype Color = Indigo | Blue | Green | Red | Yellow | Purple | Pink | Gray

  /** The two class strings each color provides. */
  datatype ColorStyle = ColorStyle(solid: string, outline: string)

  /** The component's props; an absent field takes the component's default. */
  datatype ButtonProps = ButtonProps(
    variant: Option<Variant>,
    size: Option<Size>,
    color: Option<Color>,
    isLoading: Option<bool>,
    leftIcon: Option<Node>,
    rightIcon: Option<Node>,
    fullWidth: Option<bool>,
    disabled: Option<bool>,
    className: Option<string>,
    customClassName: Option<string>,
    labelText: Option<string>,
    children: Option<Node>)

  /** What the button shows between its icons: the label text, or else its children. */
  datatype Content = Text(text: string) | Children(nodes: Option<Node>)

  /** The rendered button as data, apart from its class string (see `ClassName`). */
  datatype Rendered = Rendered(
    disabled: bool,
    spinner: bool,
    leftIcon: Option<Node>,
    content: Content,
    rightIcon: Option<Node>)

  /** What `createButton` returns. */
  datatype ButtonSpec = ButtonSpec(color: Color, labelText: string, variant: Variant)

  /** The name a color has in the style sheet's class names. */
  function ColorName(c: Color): string
  {
    match c
    case Indigo => "indigo"
    case Blue => "blue"
    case Green => "green"
    case Red => "red"
    case Yellow => "yellow"
    case Purple => "purple"
    case Pink => "pink"
    case Gray => "gray"
  }

  /** Every row of the color table follows one pattern in the color's name: the solid style
      fills with the color's 600 shade, the outline style draws a border in it, and both
      focus with the ring of the same color. */
  function ColorStyles(c: Color): (r: ColorStyle)
    ensures var fill := "bg-" + ColorName(c) + "-600";
            |fill| <= |r.solid| && r.solid[..|fill|] == fill
    ensures var border := "border-2 border-" + ColorName(c) + "-600";
            |border| <= |r.outline| && r.outline[..|border|] == border
    ensures var ring := "focus:ring-" + ColorName(c) + "-500";
            |ring| <= |r.solid| && r.solid[|r.solid| - |ring|..] == ring &&
            |ring| <= |r.outline| && r.outline[|r.outline| - |ring|..] == ring
  {
    var n := ColorName(c);
    var fill := "bg-" + n + "-600";
    var border := "border-2 border-" + n + "-600";
    var ring := "focus:ring-" + n + "-500";
    var solid := " dark:bg-" + n + "-500 text-white hover:bg-" + n + "-700 dark:hover:bg-" + n + "-600 ";
    var outline := " dark:border-" + n + "-400 text-" + n + "-600 dark:text-" + n + "-400 hover:bg-" + n +
                   "-50 dark:hover:bg-" + n + "-900/20 ";
    assert (fill + solid + ring)[..|fill|] == fill;
    assert (border + outline + ring)[..|border|] == border;
    ColorStyle(fill + solid + ring, border + outline + ring)
  }

  const GhostStyles: string := "text-gray-700 dark:text-gray-300 hover:bg-gray-100 dark:hover:bg-gray-800 focus:ring-gray-500"

  /** The classes every button carries. */
  const BaseClasses: seq<string> := [
    "inline-flex", "items-center", "justify-center", "font-semibold", "rounded-lg", "transition-colors",
    "focus:outline-none", "focus:ring-2", "focus:ring-offset-2", "dark:focus:ring-offset-gray-800",
    "disabled:opacity-50", "disabled:cursor-not-allowed"]

  /** Class names separated by single spaces, as they stand in a class attribute. */
  function JoinWords(words: seq<string>): (r: string)
    ensures words == [] ==> r == []
    ensures |words| > 0 && words[0] != [] ==> r != [] && r[0] == words[0][0]
  {
    if |words| == 0 then []
    else if |words| == 1 then words[0]
    else words[0] + " " + JoinWords(words[1..])
  }

  /** The base class string of the component. */
  const BaseStyles: string := JoinWords(BaseClasses)

  /** The variant table: danger and success ignore the color, ghost is a fixed string, and
      the others take the color's solid or outline style. */
  function VariantClass(v: Variant, c: Color): (r: string)
    ensures v == Danger ==> r == ColorStyles(Red).solid
    ensures v == Success ==> r == ColorStyles(Green).solid
    ensures v == Ghost ==> r == GhostStyles
    ensures v == Primary || v == Secondary ==> r == ColorStyles(c).solid
    ensures v == Outline ==> r == ColorStyles(c).outline
  {
    match v
    case Primary => ColorStyles(c).solid
    case Secondary => ColorStyles(c).solid
    case Danger => ColorStyles(Red).solid
    case Success => ColorStyles(Green).solid
    case Outline => ColorStyles(c).outline
    case Ghost => GhostStyles
  }

  /** The padding and text size of each button size: a padding class first, and no white
      space at either end. */
  function SizeClass(s: Size): (r: string)
    ensures |r| > 3 && r[..3] == "px-"
    ensures !IsJsSpace(r[0]) && !IsJsSpace(r[|r| - 1])
  {
    match s
    case Sm => "px-3 py-1.5 text-sm"
    case Md => "px-4 py-2 text-base"
    case Lg => "px-6 py-3 text-lg"
  }

  /** The white space `String.prototype.trim` removes: the line terminators and the white
      space characters of ECMAScript (tab, vertical tab, form feed, the byte order mark and
      every space separator). */
  predicate IsJsSpace(c: char)
  {
    c == '\t' || c == '\n' || c == '\U{000B}' || c == '\U{000C}' || c == '\r' || c == ' ' ||
    c == '\U{00A0}' || c == '\U{1680}' || ('\U{2000}' <= c <= '\U{200A}') ||
    c == '\U{2028}' || c == '\U{2029}' || c == '\U{202F}' || c == '\U{205F}' ||
    c == '\U{3000}' || c == '\U{FEFF}'
  }

  /** `s` with its leading white space removed, and nothing else. */
  function TrimStart(s: string): (r: string)
    ensures |r| <= |s| && r == s[|s| - |r|..]
    ensures r == [] || !IsJsSpace(r[0])
    ensures forall i :: 0 <= i < |s| - |r| ==> IsJsSpace(s[i])
  {
    if s != [] && IsJsSpace(s[0]) then
      var r := TrimStart(s[1..]);
      assert forall i :: 1 <= i < |s| ==> s[i] == s[1..][i - 1];
      r
    else s
  }

  /** `s` with its trailing white space removed, and nothing else. */
  function TrimEnd(s: string): (r: string)
    ensures |r| <= |s| && r == s[..|r|]
    ensures r == [] || !IsJsSpace(r[|r| - 1])
    ensures forall i :: |r| <= i < |s| ==> IsJsSpace(s[i])
  {
    if s != [] && IsJsSpace(s[|s| - 1]) then TrimEnd(s[..|s| - 1]) else s
  }

  /** `s.trim()`: the slice of `s` left when the white space at both ends is removed. */
  function Trim(s: string): (r: string)
    ensures r == [] || (!IsJsSpace(r[0]) && !IsJsSpace(r[|r| - 1]))
    ensures exists k, m :: 0 <= k <= m <= |s| && r == s[k..m] &&
                           (forall i :: 0 <= i < k || m <= i < |s| ==> IsJsSpace(s[i]))
  {
    var t := TrimStart(s);
    var k := |s| - |t|;
    var r := TrimEnd(t);
    assert r == s[k..k + |r|];
    assert forall i :: k + |r| <= i < |s| ==> s[i] == t[i - k];
    r
  }

  /** Trimming the end only reaches past a non-space character if there is none after it. */
  lemma {:induction false} TrimEndConcat(a: string, b: string)
    requires a != [] && !IsJsSpace(a[|a| - 1])
    ensures TrimEnd(a + b) == a + TrimEnd(b)
    decreases |b|
  {
    if b == [] {
      assert a + b == a;
    } else if IsJsSpace(b[|b| - 1]) {
      assert (a + b)[..|a + b| - 1] == a + b[..|b| - 1];
      TrimEndConcat(a, b[..|b| - 1]);
    }
  }

  /** Trimming removes nothing from a string that starts and ends with a non-space. */
  lemma {:induction false} TrimEdges(a: string, b: string)
    requires a != [] && !IsJsSpace(a[0]) && !IsJsSpace(a[|a| - 1])
    ensures Trim(a + b) == a + TrimEnd(b)
  {
    assert (a + b)[0] == a[0];
    TrimEndConcat(a, b);
  }

  /** A string made only of white space trims to nothing. */
  lemma {:induction false} TrimEndAllSpace(s: string)
    requires forall i :: 0 <= i < |s| ==> IsJsSpace(s[i])
    ensures TrimEnd(s) == []
    decreases |s|
  {
    if s != [] {
      TrimEndAllSpace(s[..|s| - 1]);
    }
  }

  function ResolvedVariant(p: ButtonProps): Variant { p.variant.GetOr(Primary) }
  function ResolvedSize(p: ButtonProps): Size { p.size.GetOr(Md) }
  function ResolvedColor(p: ButtonProps): Color { p.color.GetOr(Indigo) }
  function IsLoading(p: ButtonProps): bool { p.isLoading.GetOr(false) }

  /** The override applies exactly when `customClassName` is a non-empty string. */
  predicate HasCustomClass(p: ButtonProps)
  {
    p.customClassName.Some? && p.customClassName.value != ""
  }

  function WidthClass(p: ButtonProps): (r: string)
    ensures r == "w-full" <==> p.fullWidth == Some(true)
    ensures r == "" <==> p.fullWidth != Some(true)
  {
    if p.fullWidth.GetOr(false) then "w-full" else ""
  }

  /** The final class string: the custom class replaces the variant and `className`. */
  function ClassName(p: ButtonProps): (r: string)
  {
    // The two template strings, grouped as (base and styles) + (width and caller's class).
    var size := SizeClass(ResolvedSize(p));
    if HasCustomClass(p) then
      Trim((BaseStyles + " " + size) + (" " + WidthClass(p) + " " + p.customClassName.value))
    else
      Trim((BaseStyles + " " + VariantClass(ResolvedVariant(p), ResolvedColor(p)) + " " + size) +
           (" " + WidthClass(p) + " " + p.className.GetOr("")))
  }

  lemma BaseStart()
    ensures BaseStyles != [] && !IsJsSpace(BaseStyles[0])
  {
  }

  /** With a custom class, the class string is the base and size styles followed by the
      trimmed width and custom class; variant, color and `className` play no part. */
  lemma CustomClassOverrides(p: ButtonProps)
    requires HasCustomClass(p)
    ensures ClassName(p) == BaseStyles + " " + SizeClass(ResolvedSize(p)) +
                            TrimEnd(" " + WidthClass(p) + " " + p.customClassName.value)
  {
    var size := SizeClass(ResolvedSize(p));
    BaseStart();
    TrimEdges(BaseStyles + " " + size, " " + WidthClass(p) + " " + p.customClassName.value);
  }

  /** Without a custom class, the class string is the base, variant and size styles followed
      by the trimmed width and `className`. */
  lemma MergedClass(p: ButtonProps)
    requires !HasCustomClass(p)
    ensures ClassName(p) == BaseStyles + " " + VariantClass(ResolvedVariant(p), ResolvedColor(p)) + " " +
                            SizeClass(ResolvedSize(p)) + TrimEnd(" " + WidthClass(p) + " " + p.className.GetOr(""))
  {
    var size := SizeClass(ResolvedSize(p));
    var head := BaseStyles + " " + VariantClass(ResolvedVariant(p), ResolvedColor(p)) + " " + size;
    BaseStart();
    assert head[0] == BaseStyles[0];
    TrimEdges(head, " " + WidthClass(p) + " " + p.className.GetOr(""));
  }

  /** The custom class is a full override: with it, the variant, the color and `className`
      have no effect on the class string. */
  lemma CustomClassIgnoresVariant(p: ButtonProps, v: Option<Variant>, c: Option<Color>, k: Option<string>)
    requires HasCustomClass(p)
    ensures ClassName(p.(variant := v, color := c, className := k)) == ClassName(p)
  {
  }

  /** An empty custom class is no custom class: it leaves the merged class string as it is. */
  lemma EmptyCustomClassIgnored(p: ButtonProps)
    requires p.customClassName == Some("")
    ensures ClassName(p) == ClassName(p.(customClassName := None))
  {
  }

  /** The width class, in both directions, when no class of the caller's is added: the
      string ends in ` w-full` exactly for a full-width button. */
  lemma PlainClassName(p: ButtonProps)
    requires !HasCustomClass(p) && p.className.GetOr("") == ""
    ensures ClassName(p) == BaseStyles + " " + VariantClass(ResolvedVariant(p), ResolvedColor(p)) + " " +
                            SizeClass(ResolvedSize(p)) + (if p.fullWidth == Some(true) then " w-full" else "")
  {
    MergedClass(p);
    WidthTail(p.fullWidth == Some(true));
    assert " " + WidthClass(p) + " " + p.className.GetOr("") == " " + WidthClass(p) + " ";
  }

  /** The width part of the template when nothing follows it. */
  lemma WidthTail(full: bool)
    ensures TrimEnd(" " + (if full then "w-full" else "") + " ") == if full then " w-full" else ""
  {
    if full {
      assert " " + "w-full" + " " == " w-full ";
      assert " w-full "[..7] == " w-full";
    } else {
      assert " " + "" + " " == "  ";
      assert "  "[..1] == " ";
      assert " "[..0] == "";
    }
  }

  /** The rendered button: disabled when asked to be or while loading; the spinner replaces
      both icons while loading; the label wins over the children when it is non-empty. */
  function Render(p: ButtonProps): (r: Rendered)
    ensures r.disabled <==> p.disabled == Some(true) || p.isLoading == Some(true)
    ensures r.spinner <==> p.isLoading == Some(true)
    ensures r.leftIcon.Some? <==> p.isLoading != Some(true) && p.leftIcon.Some?
    ensures r.rightIcon.Some? <==> p.isLoading != Some(true) && p.rightIcon.Some?
    ensures r.leftIcon.Some? ==> r.leftIcon == p.leftIcon
    ensures r.rightIcon.Some? ==> r.rightIcon == p.rightIcon
    ensures p.labelText.Some? && p.labelText.value != "" ==> r.content == Text(p.labelText.value)
    ensures p.labelText.None? || p.labelText.value == "" ==> r.content == Children(p.children)
  {
    var loading := IsLoading(p);
    Rendered(
      p.disabled.GetOr(false) || loading,
      loading,
      if !loading then p.leftIcon else None,
      if p.labelText.Some? && p.labelText.value != "" then Text(p.labelText.value) else Children(p.children),
      if !loading then p.rightIcon else None)
  }

  /** `createButton`: the color defaults to indigo and the variant to primary. */
  function CreateButton(color: Option<Color>, labelText: string, variant: Option<Variant>): (b: ButtonSpec)
    ensures b.labelText == labelText
    ensures b.color == (if color.Some? then color.value else Indigo)
    ensures b.variant == (if variant.Some? then variant.value else Primary)
  {
    ButtonSpec(color.GetOr(Indigo), labelText, variant.GetOr(Primary))
  }

  /** The props a `createButton` result supplies when spread into a button. */
  function SpecProps(b: ButtonSpec): ButtonProps
  {
    ButtonProps(Some(b.variant), None, Some(b.color), None, None, None, None, None, None, None, Some(b.labelText), None)
  }

  /** The button with no props at all: primary, indigo, medium, enabled, no icons. */
  lemma DefaultButton()
    ensures var none := ButtonProps(None, None, None, None, None, None, None, None, None, None, None, None);
      && ClassName(none) == BaseStyles + " " + ColorStyles(Indigo).solid + " " + SizeClass(Md)
      && Render(none) == Rendered(false, false, None, Children(None), None)
  {
    var none := ButtonProps(None, None, None, None, None, None, None, None, None, None, None, None);
    PlainClassName(none);
  }

  /** `createButton` and the button component agree on their defaults: a spec created
      without color and variant renders as the default primary indigo button. */
  lemma CreatedButtonRenders(color: Option<Color>, labelText: string, variant: Option<Variant>)
    ensures var p := SpecProps(CreateButton(color, labelText, variant)); var r := Render(p);
      && ClassName(p) == BaseStyles + " " + VariantClass(variant.GetOr(Primary), color.GetOr(Indigo)) + " " + SizeClass(Md)
      && !r.disabled
      && r.content == (if labelText != "" then Text(labelText) else Children(None))
  {
    PlainClassName(SpecProps(CreateButton(color, labelText, variant)));
  }
}
