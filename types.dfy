/** Shared vocabulary of the toolbar button model: the record a lifecycle event
    resolves to, the four native browser-action setters and the values they take. */
module ButtonTypes {

  datatype Option<+T> = None | Some(value: T)

  /** The value of an optional argument, or its default when it is absent
      (a JavaScript default parameter, or `x || d` where `x` can only be falsy
      when absent). */
  function Or<T>(o: Option<T>, default: T): T
  {
    if o.Some? then o.value else default
  }

  /** An RGBA colour as the browser takes it: a list of channels. */
  type Color = seq<int>

  type TabId = int

  /** The native `browser.browserAction` setters the button drives. */
  datatype Method = SetBadgeBackgroundColor | SetIcon | SetBadgeText | SetTitle

  /** The properties of a button record that are pushed to the browser. */
  datatype Property = ColorProperty | PathProperty | TextProperty | TitleProperty

  /** What a setter is called with: a string, or a colour. */
  datatype Value = Str(s: string) | Rgba(channels: Color)

  /** The last value pushed, per setter, for one tab. */
  type Slots = map<Method, Value>

  /** The order in which one refresh walks the properties. */
  const BUTTON_PROPERTIES: seq<Property> := [ColorProperty, PathProperty, TextProperty, TitleProperty]

  /** The visual state of one tab's button. */
  datatype VisualState = VisualState(
    text: string,
    color: Color,
    title: string,
    path: string,
    progress: int,
    barProgress: int)

  /** The localised messages the button shows; their contents are opaque here. */
  datatype Catalog = Catalog(
    defaultTooltip: string,
    autoSaveActiveBadge: string,
    autoSaveActiveTooltip: string,
    initializingBadge: string,
    initializingTooltip: string,
    errorBadge: string,
    okBadge: string,
    saveProgressTooltip: string)

  /** The setter that pushes a property. */
  function MethodOf(p: Property): (m: Method)
    ensures PropertyOf(m) == p
  {
    match p
    case ColorProperty => SetBadgeBackgroundColor
    case PathProperty => SetIcon
    case TextProperty => SetBadgeText
    case TitleProperty => SetTitle
  }

  /** The property a setter pushes. */
  function PropertyOf(m: Method): Property
  {
    match m
    case SetBadgeBackgroundColor => ColorProperty
    case SetIcon => PathProperty
    case SetBadgeText => TextProperty
    case SetTitle => TitleProperty
  }

  /** Position of a setter in the push order. */
  function Rank(m: Method): (r: nat)
    ensures r < |BUTTON_PROPERTIES| && MethodOf(BUTTON_PROPERTIES[r]) == m
  {
    match m
    case SetBadgeBackgroundColor => 0
    case SetIcon => 1
    case SetBadgeText => 2
    case SetTitle => 3
  }

  /** The value a record holds for a property (`tabData[property]`). */
  function ValueOf(vs: VisualState, p: Property): (v: Value)
    ensures WellTypedSlot(MethodOf(p), v)
  {
    match p
    case ColorProperty => Rgba(vs.color)
    case PathProperty => Str(vs.path)
    case TextProperty => Str(vs.text)
    case TitleProperty => Str(vs.title)
  }

  /** A slot holds a value of the kind its setter takes. */
  predicate WellTypedSlot(m: Method, v: Value)
  {
    v.Rgba? <==> m == SetBadgeBackgroundColor
  }

  predicate WellTypedSlots(s: Slots)
  {
    forall m :: m in s ==> WellTypedSlot(m, s[m])
  }
}
