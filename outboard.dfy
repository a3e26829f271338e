/**
 * `Outboard`: one device of the rack, built from a configuration record. Its setters refuse
 * to change a stock device; its controllers live inside the stored copy of the configuration.
 */
module Outboard {
  import opened Wrappers
  import opened Numbers
  import opened Types
  import opened Color
  import Communicator

  const NotValidError := "Not a valid color"
  const StockError := "Stock Device cannot be modified"
  const ExistsError := "Controller already exists"
  const NotFoundError := "Controller not found"

  /**
   * `ObjectUtils.clone` of a configuration (a JSON round trip): a `Color` instance is
   * written as its `toJSON()`, the hex string with alpha; every other value survives.
   */
  function CloneColor(c: ColorInput): ColorInput
  {
    if c.ColorObject? then ColorText(ToJson(c.color)) else c
  }

  function Clone(config: DeviceConfig): DeviceConfig
  {
    config.(backgroundColor := CloneColor(config.backgroundColor),
            panelColor := CloneColor(config.panelColor),
            borderColor := CloneColor(config.borderColor))
  }

  /**
   * `Outboard.parseColor`: nothing or "transparent" is transparent black; a `Color` is taken
   * as it is; an object with components is built from them; a string is read as hex, else as
   * rgb/rgba, else taken as transparent black.
   */
  function ParseColor(color: ColorInput): Rgba
  {
    match color
    case NoColor => Transparent
    case ColorObject(c) => c
    case ColorComponents(r, g, b, a) => Create(r, g, b, a)
    case ColorText(t) =>
      if t == "transparent" then Transparent
      else match CreateFromHex(t)
        case Ok(c) => c
        case Err(_) =>
          match CreateFromRgb(t)
          case Ok(c) => c
          case Err(_) => Transparent
  }

  /** `minValue || 0` and `maxValue || 127`: an absent or zero bound takes the default. */
  function Normalized(c: Controller): Controller
  {
    c.(minValue := Some(if c.minValue.Some? && c.minValue.value != 0 then c.minValue.value else 0),
       maxValue := Some(if c.maxValue.Some? && c.maxValue.value != 0 then c.maxValue.value else 127))
  }

  function NormalizedList(list: seq<Controller>): (r: seq<Controller>)
    ensures |r| == |list| && forall i :: 0 <= i < |list| ==> r[i] == Normalized(list[i])
  {
    if list == [] then [] else [Normalized(list[0])] + NormalizedList(list[1..])
  }

  function NormalizedAll(cs: Controllers): Controllers
  {
    Controllers(NormalizedList(cs.lcds), NormalizedList(cs.toggles), NormalizedList(cs.rotaries))
  }

  /** The controllers in the order `getController` visits them: LCDs, toggles, rotaries. */
  function InOrder(cs: Controllers): seq<Controller>
  {
    cs.lcds + cs.toggles + cs.rotaries
  }

  /** The first controller of the list with this label. */
  function FirstWithCaption(list: seq<Controller>, caption: string): (r: Option<Controller>)
    ensures r.None? <==> forall i :: 0 <= i < |list| ==> list[i].caption != caption
    ensures r.Some? ==> exists i :: 0 <= i < |list| && list[i] == r.value && r.value.caption == caption
                                    && forall j :: 0 <= j < i ==> list[j].caption != caption
  {
    if list == [] then None
    else if list[0].caption == caption then Some(list[0])
    else
      var r := FirstWithCaption(list[1..], caption);
      assert forall i :: 1 <= i < |list| ==> list[i] == list[1..][i - 1];
      r
  }

  /** `getController(label)`. */
  function ControllerOf(cs: Controllers, caption: string): Option<Controller>
  {
    FirstWithCaption(InOrder(cs), caption)
  }

  /** The controller of an updated configuration: normalised, and given the value of the old controller with its label. */
  function Carried(c: Controller, before: Controllers): Controller
  {
    match ControllerOf(before, c.caption)
    case Some(o) => Normalized(c).(value := o.value)
    case None => Normalized(c)
  }

  function CarriedList(list: seq<Controller>, before: Controllers): (r: seq<Controller>)
    ensures |r| == |list| && forall i :: 0 <= i < |list| ==> r[i] == Carried(list[i], before)
  {
    if list == [] then [] else [Carried(list[0], before)] + CarriedList(list[1..], before)
  }

  function CarriedAll(cs: Controllers, before: Controllers): Controllers
  {
    Controllers(CarriedList(cs.lcds, before), CarriedList(cs.toggles, before), CarriedList(cs.rotaries, before))
  }

  /** The state of a device: the value of each field. */
  datatype Device = Device(
    id: string,
    caption: string,
    backgroundColor: Rgba,
    panelColor: Rgba,
    borderColor: Rgba,
    borderSize: int,
    hasMultiSelection: bool,
    category: string,
    style: RotaryStyle,
    logo: Option<string>,
    channel: Channel,
    output: Option<Communicator.Port>,
    stock: bool,
    key: string,
    originalConfigs: DeviceConfig)
  {
    /** The `controllers` getter: the same object as the stored configuration's. */
    function Controllers(): Controllers
    {
      originalConfigs.controllers
    }
  }

  /** `borderSize` when truthy (not absent and not zero). */
  predicate Truthy(n: Option<int>)
  {
    n.Some? && n.value != 0
  }

  /** `category || "uncategorized"`. */
  function CategoryOr(category: Option<string>): string
  {
    if category.Some? && category.value != "" then category.value else "uncategorized"
  }

  /** The stored configuration of the constructor: the clone, its bounds normalised. */
  function Stored(config: DeviceConfig): DeviceConfig
  {
    var cfg := Clone(config);
    cfg.(controllers := NormalizedAll(cfg.controllers))
  }

  /** The constructor, at clock reading `now` (milliseconds; its decimal string ends the key). */
  function Build(config: DeviceConfig, now: nat): Device
  {
    var cfg := Stored(config);
    Device(cfg.id, cfg.caption,
           ParseColor(cfg.backgroundColor), ParseColor(cfg.panelColor), ParseColor(cfg.borderColor),
           if Truthy(cfg.borderSize) then cfg.borderSize.value else 0,
           false, CategoryOr(cfg.category),
           if cfg.style.Some? then cfg.style.value else Dark,
           cfg.logo, 1, None, cfg.stock, cfg.id + Decimal(now), cfg)
  }

  /** The stored configuration of `update`: the clone, each controller carried from the old ones. */
  function CarriedConfig(d: Device, config: DeviceConfig): DeviceConfig
  {
    var cloned := Clone(config);
    cloned.(controllers := CarriedAll(cloned.controllers, d.Controllers()))
  }

  /**
   * The fields `update` takes from its stored configuration: the label, colours, logo,
   * category and controllers; border size and style only when the configuration has them.
   */
  function Reloaded(d: Device, cfg: DeviceConfig): Device
  {
    d.(originalConfigs := cfg,
       caption := cfg.caption,
       backgroundColor := ParseColor(cfg.backgroundColor),
       panelColor := ParseColor(cfg.panelColor),
       borderColor := ParseColor(cfg.borderColor),
       borderSize := if Truthy(cfg.borderSize) then cfg.borderSize.value else d.borderSize,
       logo := cfg.logo,
       category := CategoryOr(cfg.category),
       style := if cfg.style.Some? then cfg.style.value else d.style)
  }

  /**
   * `update(config)`: every controller keeps the value of the old controller with its label;
   * id, key, stock, channel, output and multi-selection stay. There is no stock check.
   */
  function Updated(d: Device, config: DeviceConfig): Device
  {
    Reloaded(d, CarriedConfig(d, config))
  }

  /** One of the twelve setters, with its argument. */
  datatype Change =
    | NewId(id: string)
    | NewCaption(caption: string)
    | NewBackgroundColor(color: ColorInput)
    | NewPanelColor(color: ColorInput)
    | NewBorderColor(color: ColorInput)
    | NewBorderSize(size: int)
    | NewMultiSelection(flag: bool)
    | NewCategory(category: Option<string>)
    | NewStyle(style: RotaryStyle)
    | NewLogo(logo: Option<string>)
    | NewChannel(channel: Channel)
    | NewOutput(output: Option<Communicator.Port>)

  /**
   * A setter: a stock device throws; a negative border size is "Not a valid color"; the
   * category setter throws for every non-empty category and otherwise stores "uncategorized".
   */
  function Apply(d: Device, change: Change): Result<Device>
  {
    if d.stock then Err(StockError)
    else
      match change
      case NewId(id) => Ok(d.(id := id))
      case NewCaption(caption) => Ok(d.(caption := caption))
      case NewBackgroundColor(color) => Ok(d.(backgroundColor := ParseColor(color)))
      case NewPanelColor(color) => Ok(d.(panelColor := ParseColor(color)))
      case NewBorderColor(color) => Ok(d.(borderColor := ParseColor(color)))
      case NewBorderSize(size) => if size < 0 then Err(NotValidError) else Ok(d.(borderSize := size))
      case NewMultiSelection(flag) => Ok(d.(hasMultiSelection := flag))
      case NewCategory(category) =>
        if category.Some? && category.value != "" then Err(NotValidError)
        else Ok(d.(category := CategoryOr(category)))
      case NewStyle(style) => Ok(d.(style := style))
      case NewLogo(logo) => Ok(d.(logo := logo))
      case NewChannel(channel) => Ok(d.(channel := channel))
      case NewOutput(output) => Ok(d.(output := output))
  }

  /** `getControllerList`: the LCD or toggle array itself, or a filtered copy of the rotaries. */
  function ControllerList(cs: Controllers, kind: ControllerType): seq<Controller>
  {
    match kind
    case Lcd => cs.lcds
    case Toggle => cs.toggles
    case Rotary => OfKind(cs.rotaries, Rotary)
    case Step => OfKind(cs.rotaries, Step)
  }

  function OfKind(list: seq<Controller>, kind: ControllerType): (r: seq<Controller>)
    ensures forall c :: c in r <==> c in list && c.kind == kind
  {
    if list == [] then []
    else (if list[0].kind == kind then [list[0]] else []) + OfKind(list[1..], kind)
  }

  /** `findIndex` by label. */
  function IndexOfCaption(list: seq<Controller>, caption: string): (r: int)
    ensures -1 <= r < |list|
    ensures r == -1 <==> forall i :: 0 <= i < |list| ==> list[i].caption != caption
    ensures r >= 0 ==> list[r].caption == caption && forall i :: 0 <= i < r ==> list[i].caption != caption
  {
    if list == [] then -1
    else if list[0].caption == caption then 0
    else
      var k := IndexOfCaption(list[1..], caption);
      if k == -1 then -1 else k + 1
  }

  function WithControllers(d: Device, cs: Controllers): Device
  {
    d.(originalConfigs := d.originalConfigs.(controllers := cs))
  }

  /**
   * `addController`: a stock device throws; a label already in the type's list throws;
   * otherwise the controller is pushed onto that list, which for a rotary or step controller
   * is a copy, so the device does not change.
   */
  function WithAdded(d: Device, c: Controller): Result<Device>
  {
    if d.stock then Err(StockError)
    else
      var cs := d.Controllers();
      if IndexOfCaption(ControllerList(cs, c.kind), c.caption) != -1 then Err(ExistsError)
      else
        match c.kind
        case Lcd => Ok(WithControllers(d, cs.(lcds := cs.lcds + [c])))
        case Toggle => Ok(WithControllers(d, cs.(toggles := cs.toggles + [c])))
        case _ => Ok(d)
  }

  /** `list.splice(i, 1)`: the element at `i` removed, nothing when `i` is past the end. */
  function RemoveAt(list: seq<Controller>, i: nat): seq<Controller>
  {
    if i < |list| then list[..i] + list[i + 1..] else list
  }

  /**
   * `deleteController`: a stock device throws; the index is that of the label among the
   * LCDs whatever the type ("Controller not found" when absent), and that index is removed
   * from the type's list; for a rotary or step controller the list is a copy.
   */
  function WithDeleted(d: Device, c: Controller): Result<Device>
  {
    if d.stock then Err(StockError)
    else
      var cs := d.Controllers();
      var i := IndexOfCaption(cs.lcds, c.caption);
      if i == -1 then Err(NotFoundError)
      else
        match c.kind
        case Lcd => Ok(WithControllers(d, cs.(lcds := RemoveAt(cs.lcds, i))))
        case Toggle => Ok(WithControllers(d, cs.(toggles := RemoveAt(cs.toggles, i))))
        case _ => Ok(d)
  }

  /** `toJSON()`: the fields as a configuration, colours as hex strings with alpha. */
  function DeviceJson(d: Device): DeviceConfig
  {
    DeviceConfig(d.id, d.caption,
                 ColorText(ToHex(d.backgroundColor, true)), ColorText(ToHex(d.panelColor, true)), ColorText(ToHex(d.borderColor, true)),
                 Some(d.borderSize), Some(d.style), d.stock, Some(d.category), d.Controllers(), d.logo)
  }

  function OutcomeOf(r: Result<Device>): Outcome
  {
    if r.Ok? then Pass else Fail(r.message)
  }

  function After(d: Device, r: Result<Device>): Device
  {
    if r.Ok? then r.value else d
  }

  /** The bound-normalising loop of the constructor over one controller list. */
  method NormalizeList(list: seq<Controller>) returns (r: seq<Controller>)
    ensures r == NormalizedList(list)
  {
    r := [];
    var i := 0;
    while i < |list|
      invariant 0 <= i <= |list|
      invariant |r| == i && forall j :: 0 <= j < i ==> r[j] == Normalized(list[j])
    {
      var c := list[i];
      var min := if c.minValue.Some? && c.minValue.value != 0 then c.minValue.value else 0;
      var max := if c.maxValue.Some? && c.maxValue.value != 0 then c.maxValue.value else 127;
      r := r + [c.(minValue := Some(min), maxValue := Some(max))];
      i := i + 1;
    }
  }

  /** `getController`: the LCDs, then the toggles, then the rotaries, returning at the first label that matches. */
  method FindController(cs: Controllers, caption: string) returns (r: Option<Controller>)
    ensures r == ControllerOf(cs, caption)
  {
    var all := cs.lcds + cs.toggles + cs.rotaries;
    var i := 0;
    while i < |all|
      invariant 0 <= i <= |all|
      invariant forall j :: 0 <= j < i ==> all[j].caption != caption
    {
      if all[i].caption == caption {
        FirstIsAt(all, caption, i);
        return Some(all[i]);
      }
      i := i + 1;
    }
    return None;
  }

  lemma FirstIsAt(list: seq<Controller>, caption: string, i: nat)
    requires i < |list| && list[i].caption == caption
    requires forall j :: 0 <= j < i ==> list[j].caption != caption
    ensures FirstWithCaption(list, caption) == Some(list[i])
  {
    var r := FirstWithCaption(list, caption);
    var k :| 0 <= k < |list| && list[k] == r.value && r.value.caption == caption
             && forall j :: 0 <= j < k ==> list[j].caption != caption;
    assert k == i;
  }

  /** The loop of `update` over one list: normalise each controller and carry the old value by label. */
  method CarryValues(list: seq<Controller>, before: Controllers) returns (r: seq<Controller>)
    ensures r == CarriedList(list, before)
  {
    r := [];
    var i := 0;
    while i < |list|
      invariant 0 <= i <= |list|
      invariant |r| == i && forall j :: 0 <= j < i ==> r[j] == Carried(list[j], before)
    {
      var c := list[i];
      var min := if c.minValue.Some? && c.minValue.value != 0 then c.minValue.value else 0;
      var max := if c.maxValue.Some? && c.maxValue.value != 0 then c.maxValue.value else 127;
      c := c.(minValue := Some(min), maxValue := Some(max));
      var found := FindController(before, c.caption);
      if found.Some? {
        c := c.(value := found.value.value);
      }
      r := r + [c];
      i := i + 1;
    }
  }

  // Properties of the device model.

  /** The bounds `minValue || 0` and `maxValue || 127` give, and everything else of the controller kept. */
  predicate NormalizedFrom(n: Controller, c: Controller)
  {
    n.(minValue := c.minValue, maxValue := c.maxValue) == c
    && n.minValue == Some(c.minValue.GetOr(0))
    && n.maxValue == Some(if c.maxValue == Some(0) then 127 else c.maxValue.GetOr(127))
  }

  predicate ListNormalizedFrom(ns: seq<Controller>, cs: seq<Controller>)
  {
    |ns| == |cs| && forall i :: 0 <= i < |cs| ==> NormalizedFrom(ns[i], cs[i])
  }

  /** Normalising sets both bounds, never to a zero maximum, and a second pass changes nothing. */
  lemma NormalizedBounds(c: Controller)
    ensures NormalizedFrom(Normalized(c), c)
    ensures Normalized(c).maxValue.value != 0
    ensures Normalized(Normalized(c)) == Normalized(c)
  {
  }

  lemma NormalizedListFrom(cs: seq<Controller>)
    ensures ListNormalizedFrom(NormalizedList(cs), cs)
    ensures NormalizedList(NormalizedList(cs)) == NormalizedList(cs)
  {
    forall i | 0 <= i < |cs| ensures NormalizedFrom(NormalizedList(cs)[i], cs[i]) {
      NormalizedBounds(cs[i]);
    }
  }

  /**
   * A new device has the configuration's id and label, a key made of the id and the clock
   * reading, the stock flag of the configuration, no multi-selection, channel 1 and no
   * output; an absent or empty category is "uncategorized", an absent style "dark", an
   * absent or zero border size 0; and every controller's bounds are normalised.
   */
  lemma BuildDefaults(config: DeviceConfig, now: nat)
    ensures var d := Build(config, now);
            d.id == config.id && d.caption == config.caption && d.key == config.id + Decimal(now)
            && d.stock == config.stock && !d.hasMultiSelection && d.channel == 1 && d.output.None?
            && d.logo == config.logo && d.category != ""
            && (config.category.Some? && config.category.value != "" ==> d.category == config.category.value)
            && (config.category.None? || config.category.value == "" ==> d.category == "uncategorized")
            && d.style == config.style.GetOr(Dark)
            && d.borderSize == config.borderSize.GetOr(0)
            && ListNormalizedFrom(d.Controllers().lcds, config.controllers.lcds)
            && ListNormalizedFrom(d.Controllers().toggles, config.controllers.toggles)
            && ListNormalizedFrom(d.Controllers().rotaries, config.controllers.rotaries)
  {
    NormalizedListFrom(config.controllers.lcds);
    NormalizedListFrom(config.controllers.toggles);
    NormalizedListFrom(config.controllers.rotaries);
  }

  /**
   * The colour a configuration gives, through the clone: text "transparent" and an absent
   * colour are transparent black; a `Color` with byte components and an exact alpha comes
   * back unchanged; one whose alpha byte is not an integer comes back as transparent black.
   */
  lemma ColorThroughClone(input: ColorInput)
    ensures input.NoColor? || input == ColorText("transparent") ==>
              ParseColor(CloneColor(input)) == Transparent && IsTransparent(ParseColor(CloneColor(input)))
    ensures input.ColorObject? && IsByteColor(input.color) && AlphaExact(input.color.a) ==>
              ParseColor(CloneColor(input)) == input.color
    ensures input.ColorObject? && (input.color.a * 51) % 20 != 0 ==> ParseColor(CloneColor(input)) == Transparent
    ensures input.ColorComponents? ==> ParseColor(CloneColor(input)) == Create(input.r, input.g, input.b, input.a)
  {
    if input.ColorObject? {
      var c := input.color;
      HexReadBack(c);
      if (c.a * 51) % 20 != 0 {
        FractionalAlphaUnreadable(c);
      }
    }
  }

  /** A hex form made by `toHex` is never the word "transparent", and reads back when it can. */
  lemma HexReadBack(c: Rgba)
    ensures ToHex(c, true) != "transparent"
    ensures ParseColor(ColorText(ToHex(c, true))) ==
              match CreateFromHex(ToHex(c, true))
              case Ok(x) => x
              case Err(_) => match CreateFromRgb(ToHex(c, true)) case Ok(y) => y case Err(_) => Transparent
    ensures IsByteColor(c) && AlphaExact(c.a) ==> ParseColor(ColorText(ToHex(c, true))) == c
  {
    assert ToHex(c, true)[0] == '#';
    if IsByteColor(c) && AlphaExact(c.a) {
      HexRoundTrip(c);
    }
  }

  /** Validity of a device state: its category is never empty. */
  predicate Valid(d: Device)
  {
    d.category != ""
  }

  /**
   * A stock device refuses every setter and every controller change with the stock error.
   * Every setter that succeeds leaves the key, the stock flag, the stored configuration and
   * validity as they were.
   */
  lemma SettersGuarded(d: Device, change: Change, c: Controller)
    ensures d.stock ==> Apply(d, change) == Err(StockError) && WithAdded(d, c) == Err(StockError)
                        && WithDeleted(d, c) == Err(StockError)
    ensures Apply(d, change).Ok? ==>
              var e := Apply(d, change).value;
              e.key == d.key && e.stock == d.stock && e.originalConfigs == d.originalConfigs && (Valid(d) ==> Valid(e))
  {
  }

  /**
   * The category setter throws "Not a valid color" for every non-empty category, and
   * otherwise stores "uncategorized": no category can be set through it.
   */
  lemma CategorySetterRejectsNames(d: Device, category: Option<string>)
    requires !d.stock
    ensures Apply(d, NewCategory(category)).Ok? <==> category.None? || category.value == ""
    ensures Apply(d, NewCategory(category)).Err? ==> Apply(d, NewCategory(category)).message == NotValidError
    ensures Apply(d, NewCategory(category)).Ok? ==> Apply(d, NewCategory(category)).value.category == "uncategorized"
  {
  }

  /** The border-size setter accepts exactly sizes no smaller than 0 and stores them. */
  lemma BorderSizeSetter(d: Device, size: int)
    requires !d.stock
    ensures Apply(d, NewBorderSize(size)).Ok? <==> size >= 0
    ensures Apply(d, NewBorderSize(size)).Ok? ==> Apply(d, NewBorderSize(size)).value == d.(borderSize := size)
    ensures Apply(d, NewBorderSize(size)).Err? ==> Apply(d, NewBorderSize(size)).message == NotValidError
  {
  }

  /**
   * `addController` throws "Controller already exists" exactly when the type's list has the
   * label; otherwise an LCD or toggle is appended to its list, and then `getController` of
   * a new LCD's label finds it. A rotary or step controller leaves the device unchanged.
   */
  lemma AddControllerEffect(d: Device, c: Controller)
    requires !d.stock
    ensures var list := ControllerList(d.Controllers(), c.kind);
            WithAdded(d, c).Err? <==> exists i :: 0 <= i < |list| && list[i].caption == c.caption
    ensures WithAdded(d, c).Err? ==> WithAdded(d, c).message == ExistsError
    ensures WithAdded(d, c).Ok? ==>
              var e := WithAdded(d, c).value;
              var cs := d.Controllers();
              e.(originalConfigs := d.originalConfigs) == d
              && (c.kind == Lcd ==> e.Controllers() == cs.(lcds := cs.lcds + [c])
                                    && ControllerOf(e.Controllers(), c.caption) == Some(c))
              && (c.kind == Toggle ==> e.Controllers() == cs.(toggles := cs.toggles + [c]))
              && (c.kind == Rotary || c.kind == Step ==> e == d)
  {
    var cs := d.Controllers();
    if WithAdded(d, c).Ok? && c.kind == Lcd {
      var all := InOrder(WithAdded(d, c).value.Controllers());
      assert all == cs.lcds + [c] + cs.toggles + cs.rotaries;
      FirstIsAt(all, c.caption, |cs.lcds|);
    }
  }

  /**
   * `deleteController` throws "Controller not found" exactly when no LCD has the label;
   * otherwise an LCD is deleted by taking out the first LCD with that label, and a toggle by
   * taking out the toggle at that LCD's position (nothing when there is none).
   */
  lemma DeleteControllerEffect(d: Device, c: Controller)
    requires !d.stock
    ensures WithDeleted(d, c).Err? <==> forall i :: 0 <= i < |d.Controllers().lcds| ==> d.Controllers().lcds[i].caption != c.caption
    ensures WithDeleted(d, c).Err? ==> WithDeleted(d, c).message == NotFoundError
    ensures WithDeleted(d, c).Ok? ==>
              var e := WithDeleted(d, c).value;
              var cs := d.Controllers();
              var i := IndexOfCaption(cs.lcds, c.caption);
              0 <= i < |cs.lcds| && cs.lcds[i].caption == c.caption
              && (forall j :: 0 <= j < i ==> cs.lcds[j].caption != c.caption)
              && (c.kind == Lcd ==> e.Controllers() == cs.(lcds := cs.lcds[..i] + cs.lcds[i + 1..])
                                    && multiset(e.Controllers().lcds) + multiset{cs.lcds[i]} == multiset(cs.lcds))
              && (c.kind == Toggle && i < |cs.toggles| ==> e.Controllers() == cs.(toggles := cs.toggles[..i] + cs.toggles[i + 1..]))
              && (c.kind == Toggle && i >= |cs.toggles| ==> e == d)
              && (c.kind == Rotary || c.kind == Step ==> e == d)
  {
    var cs := d.Controllers();
    var i := IndexOfCaption(cs.lcds, c.caption);
    if WithDeleted(d, c).Ok? && c.kind == Lcd {
      assert cs.lcds == cs.lcds[..i] + [cs.lcds[i]] + cs.lcds[i + 1..];
    }
    if WithDeleted(d, c).Ok? && c.kind == Toggle && i >= |cs.toggles| {
      assert RemoveAt(cs.toggles, i) == cs.toggles;
      assert d.originalConfigs.(controllers := cs) == d.originalConfigs;
    }
    if WithDeleted(d, c).Ok? && (c.kind == Rotary || c.kind == Step) {
      assert WithDeleted(d, c) == Ok(d);
    }
  }

  function ControllerNamed(kind: ControllerType, caption: string): Controller
  {
    Controller(kind, caption, ControlChange, None, None, None, None, None, None)
  }

  /**
   * The toggle taken out is found by position among the LCDs: with LCD "x" and toggles "a",
   * "x", deleting toggle "x" takes out toggle "a".
   */
  lemma DeleteToggleByLcdPosition(d: Device)
    requires !d.stock
    requires d.Controllers().lcds == [ControllerNamed(Lcd, "x")]
    requires d.Controllers().toggles == [ControllerNamed(Toggle, "a"), ControllerNamed(Toggle, "x")]
    ensures WithDeleted(d, ControllerNamed(Toggle, "x")).Ok?
    ensures WithDeleted(d, ControllerNamed(Toggle, "x")).value.Controllers().toggles == [ControllerNamed(Toggle, "x")]
  {
    var cs := d.Controllers();
    assert IndexOfCaption(cs.lcds, "x") == 0;
    assert RemoveAt(cs.toggles, 0) == [ControllerNamed(Toggle, "x")];
  }

  /** A controller of an update, against the controller it came from and the old controllers. */
  predicate CarriedFrom(n: Controller, c: Controller, before: Controllers)
  {
    var o := ControllerOf(before, c.caption);
    n.caption == c.caption && n.kind == c.kind && n.message == c.message && n.note == c.note
    && n.minValue == Some(c.minValue.GetOr(0)) && n.maxValue.Some? && n.maxValue.value != 0
    && (o.Some? ==> n.value == o.value.value)
    && (o.None? ==> n.value == c.value)
  }

  predicate ListCarriedFrom(ns: seq<Controller>, cs: seq<Controller>, before: Controllers)
  {
    |ns| == |cs| && forall i :: 0 <= i < |cs| ==> CarriedFrom(ns[i], cs[i], before)
  }

  lemma CarriedListFrom(cs: seq<Controller>, before: Controllers)
    ensures ListCarriedFrom(CarriedList(cs, before), cs, before)
  {
  }

  /**
   * `update` keeps the id, key, stock flag, channel, output and multi-selection, takes the
   * new label and logo, and gives every controller of the new configuration normalised
   * bounds and the value of the old controller with the same label, if there is one.
   */
  lemma UpdateCarriesValues(d: Device, config: DeviceConfig)
    ensures var u := Updated(d, config);
            u.id == d.id && u.key == d.key && u.stock == d.stock && u.channel == d.channel
            && u.output == d.output && u.hasMultiSelection == d.hasMultiSelection
            && u.caption == config.caption && u.logo == config.logo && Valid(u)
            && ListCarriedFrom(u.Controllers().lcds, config.controllers.lcds, d.Controllers())
            && ListCarriedFrom(u.Controllers().toggles, config.controllers.toggles, d.Controllers())
            && ListCarriedFrom(u.Controllers().rotaries, config.controllers.rotaries, d.Controllers())
  {
    CarriedListFrom(config.controllers.lcds, d.Controllers());
    CarriedListFrom(config.controllers.toggles, d.Controllers());
    CarriedListFrom(config.controllers.rotaries, d.Controllers());
  }

  /** Every operation keeps a device valid, and a new device is valid. */
  lemma ValidPreserved(d: Device, config: DeviceConfig, now: nat, change: Change, c: Controller)
    ensures Valid(Build(config, now))
    ensures Valid(d) ==> Valid(Updated(d, config))
    ensures Valid(d) && Apply(d, change).Ok? ==> Valid(Apply(d, change).value)
    ensures Valid(d) && WithAdded(d, c).Ok? ==> Valid(WithAdded(d, c).value)
    ensures Valid(d) && WithDeleted(d, c).Ok? ==> Valid(WithDeleted(d, c).value)
  {
  }

  predicate ExactColors(d: Device)
  {
    IsByteColor(d.backgroundColor) && AlphaExact(d.backgroundColor.a)
    && IsByteColor(d.panelColor) && AlphaExact(d.panelColor.a)
    && IsByteColor(d.borderColor) && AlphaExact(d.borderColor.a)
  }

  /**
   * Building a device from `toJSON()` of a valid device whose colours have byte components
   * and exact alphas restores every field, except that the key takes the new clock reading,
   * the fields `toJSON()` leaves out take their defaults, and the controllers' bounds are
   * normalised.
   */
  lemma JsonRoundTrip(d: Device, now: nat)
    requires Valid(d) && ExactColors(d)
    ensures Build(DeviceJson(d), now)
            == d.(hasMultiSelection := false, channel := 1, output := None, key := d.id + Decimal(now),
                  originalConfigs := DeviceJson(d).(controllers := NormalizedAll(d.Controllers())))
  {
    HexReadBack(d.backgroundColor);
    HexReadBack(d.panelColor);
    HexReadBack(d.borderColor);
  }

  /** A background whose alpha byte is not an integer does not survive `toJSON()` and a rebuild: it becomes transparent black. */
  lemma FractionalAlphaLostOnReload(d: Device, now: nat)
    requires (d.backgroundColor.a * 51) % 20 != 0
    ensures Build(DeviceJson(d), now).backgroundColor == Transparent
  {
    HexReadBack(d.backgroundColor);
    FractionalAlphaUnreadable(d.backgroundColor);
  }

  /** The device object. */
  class Outboard {
    var id: string
    var caption: string
    var backgroundColor: Rgba
    var panelColor: Rgba
    var borderColor: Rgba
    var borderSize: int
    var hasMultiSelection: bool
    var category: string
    var style: RotaryStyle
    var logo: Option<string>
    var channel: Channel
    var output: Option<Communicator.Port>
    var originalConfigs: DeviceConfig
    const stock: bool
    const key: string

    function State(): Device
      reads this
    {
      Device(id, caption, backgroundColor, panelColor, borderColor, borderSize, hasMultiSelection,
             category, style, logo, channel, output, stock, key, originalConfigs)
    }

    constructor (config: DeviceConfig, now: nat)
      ensures State() == Build(config, now)
    {
      var cfg := Clone(config);
      var lcds := NormalizeList(cfg.controllers.lcds);
      var toggles := NormalizeList(cfg.controllers.toggles);
      var rotaries := NormalizeList(cfg.controllers.rotaries);
      cfg := cfg.(controllers := Controllers(lcds, toggles, rotaries));
      originalConfigs := cfg;
      key := cfg.id + Decimal(now);
      id := cfg.id;
      caption := cfg.caption;
      backgroundColor := ParseColor(cfg.backgroundColor);
      panelColor := ParseColor(cfg.panelColor);
      borderColor := ParseColor(cfg.borderColor);
      borderSize := if Truthy(cfg.borderSize) then cfg.borderSize.value else 0;
      stock := cfg.stock;
      logo := cfg.logo;
      category := CategoryOr(cfg.category);
      style := if cfg.style.Some? then cfg.style.value else Dark;
      hasMultiSelection := false;
      channel := 1;
      output := None;
    }

    method Update(config: DeviceConfig)
      modifies this
      ensures State() == Updated(old(State()), config)
    {
      var cloned := Clone(config);
      var before := originalConfigs.controllers;
      var lcds := CarryValues(cloned.controllers.lcds, before);
      var toggles := CarryValues(cloned.controllers.toggles, before);
      var rotaries := CarryValues(cloned.controllers.rotaries, before);
      var cfg := cloned.(controllers := Controllers(lcds, toggles, rotaries));
      assert cfg == CarriedConfig(State(), config);
      Reload(cfg);
    }

    /** The assignments of `update` once its configuration is stored. */
    method Reload(cfg: DeviceConfig)
      modifies this
      ensures State() == Reloaded(old(State()), cfg)
    {
      ReloadConfig(cfg);
      ReloadColors(cfg);
      ReloadRest(cfg);
    }

    /** The stored configuration and the label. */
    method ReloadConfig(cfg: DeviceConfig)
      modifies this
      ensures State() == old(State()).(originalConfigs := cfg, caption := cfg.caption)
    {
      originalConfigs := cfg;
      caption := cfg.caption;
    }

    /** The three colours, each parsed from the configuration. */
    method ReloadColors(cfg: DeviceConfig)
      modifies this
      ensures State() == old(State()).(backgroundColor := ParseColor(cfg.backgroundColor),
                                       panelColor := ParseColor(cfg.panelColor),
                                       borderColor := ParseColor(cfg.borderColor))
    {
      backgroundColor := ParseColor(cfg.backgroundColor);
      panelColor := ParseColor(cfg.panelColor);
      borderColor := ParseColor(cfg.borderColor);
    }

    /** The border size and the style only when the configuration sets them; the logo and the category. */
    method ReloadRest(cfg: DeviceConfig)
      modifies this
      ensures State() == old(State()).(borderSize := if Truthy(cfg.borderSize) then cfg.borderSize.value else old(borderSize),
                                       logo := cfg.logo, category := CategoryOr(cfg.category),
                                       style := if cfg.style.Some? then cfg.style.value else old(style))
    {
      if Truthy(cfg.borderSize) {
        borderSize := cfg.borderSize.value;
      }
      logo := cfg.logo;
      category := CategoryOr(cfg.category);
      if cfg.style.Some? {
        style := cfg.style.value;
      }
    }

    method SetId(value: string) returns (outcome: Outcome)
      modifies this
      ensures outcome == OutcomeOf(Apply(old(State()), NewId(value)))
      ensures State() == After(old(State()), Apply(old(State()), NewId(value)))
    {
      if stock { return Fail(StockError); }
      id := value;
      outcome := Pass;
    }

    method SetCaption(value: string) returns (outcome: Outcome)
      modifies this
      ensures outcome == OutcomeOf(Apply(old(State()), NewCaption(value)))
      ensures State() == After(old(State()), Apply(old(State()), NewCaption(value)))
    {
      if stock { return Fail(StockError); }
      caption := value;
      outcome := Pass;
    }

    method SetBackgroundColor(color: ColorInput) returns (outcome: Outcome)
      modifies this
      ensures outcome == OutcomeOf(Apply(old(State()), NewBackgroundColor(color)))
      ensures State() == After(old(State()), Apply(old(State()), NewBackgroundColor(color)))
    {
      if stock { return Fail(StockError); }
      backgroundColor := ParseColor(color);
      outcome := Pass;
    }

    method SetPanelColor(color: ColorInput) returns (outcome: Outcome)
      modifies this
      ensures outcome == OutcomeOf(Apply(old(State()), NewPanelColor(color)))
      ensures State() == After(old(State()), Apply(old(State()), NewPanelColor(color)))
    {
      if stock { return Fail(StockError); }
      panelColor := ParseColor(color);
      outcome := Pass;
    }

    method SetBorderColor(color: ColorInput) returns (outcome: Outcome)
      modifies this
      ensures outcome == OutcomeOf(Apply(old(State()), NewBorderColor(color)))
      ensures State() == After(old(State()), Apply(old(State()), NewBorderColor(color)))
    {
      if stock { return Fail(StockError); }
      borderColor := ParseColor(color);
      outcome := Pass;
    }

    method SetBorderSize(size: int) returns (outcome: Outcome)
      modifies this
      ensures outcome == OutcomeOf(Apply(old(State()), NewBorderSize(size)))
      ensures State() == After(old(State()), Apply(old(State()), NewBorderSize(size)))
    {
      if stock { return Fail(StockError); }
      if size < 0 { return Fail(NotValidError); }
      borderSize := size;
      outcome := Pass;
    }

    method SetMultiSelection(flag: bool) returns (outcome: Outcome)
      modifies this
      ensures outcome == OutcomeOf(Apply(old(State()), NewMultiSelection(flag)))
      ensures State() == After(old(State()), Apply(old(State()), NewMultiSelection(flag)))
    {
      if stock { return Fail(StockError); }
      hasMultiSelection := flag;
      outcome := Pass;
    }

    method SetCategory(value: Option<string>) returns (outcome: Outcome)
      modifies this
      ensures outcome == OutcomeOf(Apply(old(State()), NewCategory(value)))
      ensures State() == After(old(State()), Apply(old(State()), NewCategory(value)))
    {
      if stock { return Fail(StockError); }
      if value.Some? && |value.value| > 0 { return Fail(NotValidError); }
      // Past the guard the category is absent or empty, so the stored value is the default.
      category := "uncategorized";
      outcome := Pass;
    }

    method SetStyle(value: RotaryStyle) returns (outcome: Outcome)
      modifies this
      ensures outcome == OutcomeOf(Apply(old(State()), NewStyle(value)))
      ensures State() == After(old(State()), Apply(old(State()), NewStyle(value)))
    {
      if stock { return Fail(StockError); }
      style := value;
      outcome := Pass;
    }

    method SetLogo(value: Option<string>) returns (outcome: Outcome)
      modifies this
      ensures outcome == OutcomeOf(Apply(old(State()), NewLogo(value)))
      ensures State() == After(old(State()), Apply(old(State()), NewLogo(value)))
    {
      if stock { return Fail(StockError); }
      logo := value;
      outcome := Pass;
    }

    method SetChannel(value: Channel) returns (outcome: Outcome)
      modifies this
      ensures outcome == OutcomeOf(Apply(old(State()), NewChannel(value)))
      ensures State() == After(old(State()), Apply(old(State()), NewChannel(value)))
    {
      if stock { return Fail(StockError); }
      channel := value;
      outcome := Pass;
    }

    method SetOutputInterface(value: Option<Communicator.Port>) returns (outcome: Outcome)
      modifies this
      ensures outcome == OutcomeOf(Apply(old(State()), NewOutput(value)))
      ensures State() == After(old(State()), Apply(old(State()), NewOutput(value)))
    {
      if stock { return Fail(StockError); }
      output := value;
      outcome := Pass;
    }

    method AddController(c: Controller) returns (outcome: Outcome)
      modifies this
      ensures outcome == OutcomeOf(WithAdded(old(State()), c))
      ensures State() == After(old(State()), WithAdded(old(State()), c))
    {
      if stock { return Fail(StockError); }
      var cs := originalConfigs.controllers;
      var list := ControllerList(cs, c.kind);
      if IndexOfCaption(list, c.caption) != -1 { return Fail(ExistsError); }
      if c.kind == Lcd {
        originalConfigs := originalConfigs.(controllers := cs.(lcds := cs.lcds + [c]));
      } else if c.kind == Toggle {
        originalConfigs := originalConfigs.(controllers := cs.(toggles := cs.toggles + [c]));
      }
      outcome := Pass;
    }

    method DeleteController(c: Controller) returns (outcome: Outcome)
      modifies this
      ensures outcome == OutcomeOf(WithDeleted(old(State()), c))
      ensures State() == After(old(State()), WithDeleted(old(State()), c))
    {
      if stock { return Fail(StockError); }
      var cs := originalConfigs.controllers;
      var i := IndexOfCaption(cs.lcds, c.caption);
      if i == -1 { return Fail(NotFoundError); }
      if c.kind == Lcd {
        originalConfigs := originalConfigs.(controllers := cs.(lcds := RemoveAt(cs.lcds, i)));
      } else if c.kind == Toggle {
        originalConfigs := originalConfigs.(controllers := cs.(toggles := RemoveAt(cs.toggles, i)));
      }
      outcome := Pass;
    }

    method GetController(caption: string) returns (r: Option<Controller>)
      ensures r == ControllerOf(originalConfigs.controllers, caption)
    {
      r := FindController(originalConfigs.controllers, caption);
    }
  }
}
