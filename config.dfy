/**
 * The lighting setup record held by the configurator: a key ("main")
 * light, a fill light, a rim light and a background, with the slider and
 * menu bounds of the controls as a validity predicate, and the two edits
 * the controls make to it (replace one field, flip an `enabled` flag).
 */
module LightingConfig {
  import opened Wrappers
  import ColorConverter

  datatype KeyLight = KeyLight(fixture: string, height: int, angle: int, intensity: int, color: int, distance: int)

  datatype FillLight = FillLight(enabled: bool, fixture: string, height: int, angle: int, intensity: int, color: int, distance: int)

  /** The rim light has no fixture type. */
  datatype RimLight = RimLight(enabled: bool, height: int, angle: int, intensity: int, color: int, distance: int)

  datatype Backdrop = Backdrop(color: string, distance: int)

  datatype Config = Config(mainLight: KeyLight, fillLight: FillLight, rimLight: RimLight, background: Backdrop)

  /** The record keys `mainLight`, `fillLight`, `rimLight`, `background`. */
  datatype LightName = Main | Fill | Rim | Background

  /** The field keys `type`, `enabled`, `height`, `angle`, `intensity`, `color`, `distance`. */
  datatype Param = Type | Enabled | Height | Angle | Intensity | Color | Distance

  /** A field value: a number, a string (fixture type, hex colour) or a flag. */
  datatype Value = Num(n: int) | Text(s: string) | Flag(b: bool)

  datatype Kind = NumKind | TextKind | FlagKind

  function KindOf(v: Value): Kind {
    match v
    case Num(_) => NumKind
    case Text(_) => TextKind
    case Flag(_) => FlagKind
  }

  /** The shape of the record: which fields each light has and the kind of value each holds. */
  function FieldKind(light: LightName, param: Param): Option<Kind> {
    match light
    case Main =>
      if param == Type then Some(TextKind) else if param == Enabled then None else Some(NumKind)
    case Fill =>
      if param == Type then Some(TextKind) else if param == Enabled then Some(FlagKind) else Some(NumKind)
    case Rim =>
      if param == Type then None else if param == Enabled then Some(FlagKind) else Some(NumKind)
    case Background =>
      if param == Color then Some(TextKind) else if param == Distance then Some(NumKind) else None
  }

  /** `value` can be stored under `light`.`param` without changing the record's shape. */
  predicate Fits(light: LightName, param: Param, value: Value) {
    FieldKind(light, param) == Some(KindOf(value))
  }

  /** The configuration at startup. */
  const Default: Config := Config(
    KeyLight("softbox", 200, 45, 75, 5600, 150),
    FillLight(true, "umbrella", 150, 30, 40, 5600, 180),
    RimLight(true, 180, 135, 60, 6000, 120),
    Backdrop("#00b300", 80))

  // Reading one field of one light.

  function KeyGet(k: KeyLight, param: Param): Option<Value> {
    match param
    case Type => Some(Text(k.fixture))
    case Enabled => None
    case Height => Some(Num(k.height))
    case Angle => Some(Num(k.angle))
    case Intensity => Some(Num(k.intensity))
    case Color => Some(Num(k.color))
    case Distance => Some(Num(k.distance))
  }

  function FillGet(f: FillLight, param: Param): Option<Value> {
    match param
    case Type => Some(Text(f.fixture))
    case Enabled => Some(Flag(f.enabled))
    case Height => Some(Num(f.height))
    case Angle => Some(Num(f.angle))
    case Intensity => Some(Num(f.intensity))
    case Color => Some(Num(f.color))
    case Distance => Some(Num(f.distance))
  }

  function RimGet(r: RimLight, param: Param): Option<Value> {
    match param
    case Type => None
    case Enabled => Some(Flag(r.enabled))
    case Height => Some(Num(r.height))
    case Angle => Some(Num(r.angle))
    case Intensity => Some(Num(r.intensity))
    case Color => Some(Num(r.color))
    case Distance => Some(Num(r.distance))
  }

  function BackdropGet(b: Backdrop, param: Param): Option<Value> {
    match param
    case Color => Some(Text(b.color))
    case Distance => Some(Num(b.distance))
    case _ => None
  }

  /** The value of one field, None for a field the light does not have. */
  function Get(c: Config, light: LightName, param: Param): (v: Option<Value>)
    ensures v.Some? <==> FieldKind(light, param).Some?
    ensures v.Some? ==> Fits(light, param, v.value)
  {
    match light
    case Main => KeyGet(c.mainLight, param)
    case Fill => FillGet(c.fillLight, param)
    case Rim => RimGet(c.rimLight, param)
    case Background => BackdropGet(c.background, param)
  }

  // Replacing one field of one light, keeping the light's other fields.

  function KeySet(k: KeyLight, param: Param, value: Value): KeyLight
    requires Fits(Main, param, value)
  {
    match param
    case Type => k.(fixture := value.s)
    case Height => k.(height := value.n)
    case Angle => k.(angle := value.n)
    case Intensity => k.(intensity := value.n)
    case Color => k.(color := value.n)
    case Distance => k.(distance := value.n)
  }

  function FillSet(f: FillLight, param: Param, value: Value): FillLight
    requires Fits(Fill, param, value)
  {
    match param
    case Type => f.(fixture := value.s)
    case Enabled => f.(enabled := value.b)
    case Height => f.(height := value.n)
    case Angle => f.(angle := value.n)
    case Intensity => f.(intensity := value.n)
    case Color => f.(color := value.n)
    case Distance => f.(distance := value.n)
  }

  function RimSet(r: RimLight, param: Param, value: Value): RimLight
    requires Fits(Rim, param, value)
  {
    match param
    case Enabled => r.(enabled := value.b)
    case Height => r.(height := value.n)
    case Angle => r.(angle := value.n)
    case Intensity => r.(intensity := value.n)
    case Color => r.(color := value.n)
    case Distance => r.(distance := value.n)
  }

  function BackdropSet(b: Backdrop, param: Param, value: Value): Backdrop
    requires Fits(Background, param, value)
  {
    match param
    case Color => b.(color := value.s)
    case Distance => b.(distance := value.n)
  }

  /**
   * updateLightConfig on a configuration value: the named field of the named
   * light holds `value` afterwards, and every other field of every light is
   * as it was.
   */
  function Update(c: Config, light: LightName, param: Param, value: Value): (d: Config)
    requires Fits(light, param, value)
    ensures forall l, p :: Get(d, l, p) == if l == light && p == param then Some(value) else Get(c, l, p)
  {
    match light
    case Main => c.(mainLight := KeySet(c.mainLight, param, value))
    case Fill => c.(fillLight := FillSet(c.fillLight, param, value))
    case Rim => c.(rimLight := RimSet(c.rimLight, param, value))
    case Background => c.(background := BackdropSet(c.background, param, value))
  }

  /** The lights that carry an `enabled` flag, the ones toggleLight is used on. */
  predicate HasSwitch(light: LightName) {
    light == Fill || light == Rim
  }

  /**
   * toggleLight on a configuration value: the light's `enabled` flag is
   * negated, and every other field of every light is as it was.
   */
  function Toggle(c: Config, light: LightName): (d: Config)
    requires HasSwitch(light)
    ensures Get(c, light, Enabled).Some? && Get(c, light, Enabled).value.Flag?
    ensures forall l, p :: Get(d, l, p) ==
                            (if l == light && p == Enabled then Some(Flag(!Get(c, light, Enabled).value.b)) else Get(c, l, p))
  {
    if light == Fill then c.(fillLight := c.fillLight.(enabled := !c.fillLight.enabled))
    else c.(rimLight := c.rimLight.(enabled := !c.rimLight.enabled))
  }

  // The record-shape laws of Get and Update.

  /** Two configurations that agree on every field are equal. */
  lemma Extensional(c: Config, d: Config)
    requires forall light, param :: Get(c, light, param) == Get(d, light, param)
    ensures c == d
  {
    assert Get(c, Main, Type) == Get(d, Main, Type) &&
      Get(c, Main, Height) == Get(d, Main, Height) &&
      Get(c, Main, Angle) == Get(d, Main, Angle) &&
      Get(c, Main, Intensity) == Get(d, Main, Intensity) &&
      Get(c, Main, Color) == Get(d, Main, Color) &&
      Get(c, Main, Distance) == Get(d, Main, Distance);
    assert Get(c, Fill, Type) == Get(d, Fill, Type) &&
      Get(c, Fill, Enabled) == Get(d, Fill, Enabled) &&
      Get(c, Fill, Height) == Get(d, Fill, Height) &&
      Get(c, Fill, Angle) == Get(d, Fill, Angle) &&
      Get(c, Fill, Intensity) == Get(d, Fill, Intensity) &&
      Get(c, Fill, Color) == Get(d, Fill, Color) &&
      Get(c, Fill, Distance) == Get(d, Fill, Distance);
    assert Get(c, Rim, Enabled) == Get(d, Rim, Enabled) &&
      Get(c, Rim, Height) == Get(d, Rim, Height) &&
      Get(c, Rim, Angle) == Get(d, Rim, Angle) &&
      Get(c, Rim, Intensity) == Get(d, Rim, Intensity) &&
      Get(c, Rim, Color) == Get(d, Rim, Color) &&
      Get(c, Rim, Distance) == Get(d, Rim, Distance);
    assert Get(c, Background, Color) == Get(d, Background, Color) &&
      Get(c, Background, Distance) == Get(d, Background, Distance);
  }

  /** Storing the value a field already holds changes nothing. */
  lemma UpdateSameValue(c: Config, light: LightName, param: Param, value: Value)
    requires Get(c, light, param) == Some(value)
    ensures Update(c, light, param, value) == c
  {
    Extensional(Update(c, light, param, value), c);
  }

  /** A second update of the same field overrides the first. */
  lemma UpdateTwice(c: Config, light: LightName, param: Param, v: Value, w: Value)
    requires Fits(light, param, v) && Fits(light, param, w)
    ensures Update(Update(c, light, param, v), light, param, w) == Update(c, light, param, w)
  {
    var once := Update(c, light, param, v);
    Extensional(Update(once, light, param, w), Update(c, light, param, w));
  }

  /** toggleLight is the update of `enabled` to the negation of its current value. */
  lemma ToggleIsUpdate(c: Config, light: LightName)
    requires HasSwitch(light)
    ensures Get(c, light, Enabled).Some? && Get(c, light, Enabled).value.Flag?
    ensures Toggle(c, light) == Update(c, light, Enabled, Flag(!Get(c, light, Enabled).value.b))
  {
  }

  /** Toggling twice restores the original configuration. */
  lemma ToggleTwice(c: Config, light: LightName)
    requires HasSwitch(light)
    ensures Toggle(Toggle(c, light), light) == c
  {
  }

  // The bounds of the controls: range sliders and option menus.

  const KeyFixtures: set<string> := {"softbox", "umbrella", "beauty dish", "bare bulb"}

  const FillFixtures: set<string> := {"softbox", "umbrella", "reflector", "panel"}

  predicate Within(n: int, lo: int, hi: int) {
    lo <= n <= hi
  }

  /** The colour-temperature slider: 2700 to 7500 in steps of 100. */
  predicate ValidTemperature(k: int) {
    Within(k, 2700, 7500) && (k - 2700) % 100 == 0
  }

  /** What the colour picker delivers: '#' and six lower-case hex digits. */
  predicate ValidColor(s: string) {
    ColorConverter.IsPickerColor(s)
  }

  /** The values the control for `light`.`param` can produce. */
  predicate InDomain(light: LightName, param: Param, value: Value) {
    Fits(light, param, value) &&
    match param
    case Type => value.s in (if light == Main then KeyFixtures else FillFixtures)
    case Enabled => true
    case Height => Within(value.n, 50, 300)
    case Angle => Within(value.n, 0, 180)
    case Intensity => Within(value.n, 10, 100)
    case Color => if light == Background then ValidColor(value.s) else ValidTemperature(value.n)
    case Distance => if light == Background then Within(value.n, 20, 200) else Within(value.n, 50, 250)
  }

  predicate ValidKey(k: KeyLight) {
    k.fixture in KeyFixtures && Within(k.height, 50, 300) && Within(k.angle, 0, 180) &&
    Within(k.intensity, 10, 100) && ValidTemperature(k.color) && Within(k.distance, 50, 250)
  }

  predicate ValidFill(f: FillLight) {
    f.fixture in FillFixtures && Within(f.height, 50, 300) && Within(f.angle, 0, 180) &&
    Within(f.intensity, 10, 100) && ValidTemperature(f.color) && Within(f.distance, 50, 250)
  }

  predicate ValidRim(r: RimLight) {
    Within(r.height, 50, 300) && Within(r.angle, 0, 180) &&
    Within(r.intensity, 10, 100) && ValidTemperature(r.color) && Within(r.distance, 50, 250)
  }

  predicate ValidBackdrop(b: Backdrop) {
    ValidColor(b.color) && Within(b.distance, 20, 200)
  }

  /** Every field holds a value its control can produce. */
  predicate Valid(c: Config) {
    ValidKey(c.mainLight) && ValidFill(c.fillLight) && ValidRim(c.rimLight) && ValidBackdrop(c.background)
  }

  predicate AllInDomain(c: Config) {
    forall light, param :: FieldKind(light, param).Some? ==> InDomain(light, param, Get(c, light, param).value)
  }

  /** Valid is exactly "every field is in its control's domain". */
  lemma ValidIffAllInDomain(c: Config)
    ensures Valid(c) <==> AllInDomain(c)
  {
    if Valid(c) {
      forall light, param | FieldKind(light, param).Some?
        ensures InDomain(light, param, Get(c, light, param).value)
      {
      }
    }
    if AllInDomain(c) {
      // Instantiate the quantifier at every field of the record.
      assert InDomain(Main, Type, Get(c, Main, Type).value);
      assert InDomain(Main, Height, Get(c, Main, Height).value);
      assert InDomain(Main, Angle, Get(c, Main, Angle).value);
      assert InDomain(Main, Intensity, Get(c, Main, Intensity).value);
      assert InDomain(Main, Color, Get(c, Main, Color).value);
      assert InDomain(Main, Distance, Get(c, Main, Distance).value);
      assert InDomain(Fill, Type, Get(c, Fill, Type).value);
      assert InDomain(Fill, Enabled, Get(c, Fill, Enabled).value);
      assert InDomain(Fill, Height, Get(c, Fill, Height).value);
      assert InDomain(Fill, Angle, Get(c, Fill, Angle).value);
      assert InDomain(Fill, Intensity, Get(c, Fill, Intensity).value);
      assert InDomain(Fill, Color, Get(c, Fill, Color).value);
      assert InDomain(Fill, Distance, Get(c, Fill, Distance).value);
      assert InDomain(Rim, Enabled, Get(c, Rim, Enabled).value);
      assert InDomain(Rim, Height, Get(c, Rim, Height).value);
      assert InDomain(Rim, Angle, Get(c, Rim, Angle).value);
      assert InDomain(Rim, Intensity, Get(c, Rim, Intensity).value);
      assert InDomain(Rim, Color, Get(c, Rim, Color).value);
      assert InDomain(Rim, Distance, Get(c, Rim, Distance).value);
      assert InDomain(Background, Color, Get(c, Background, Color).value);
      assert InDomain(Background, Distance, Get(c, Background, Distance).value);
    }
  }

  lemma DefaultValid()
    ensures Valid(Default)
  {
    assert ValidColor(Default.background.color) by {
      var s := Default.background.color;
      assert s == "#00b300";
      assert ColorConverter.IsLowerHexDigit(s[1]) && ColorConverter.IsLowerHexDigit(s[2]) &&
        ColorConverter.IsLowerHexDigit(s[3]) && ColorConverter.IsLowerHexDigit(s[4]) &&
        ColorConverter.IsLowerHexDigit(s[5]) && ColorConverter.IsLowerHexDigit(s[6]);
    }
  }

  /**
   * From a valid configuration, an update keeps it valid exactly when the
   * new value is one its control can produce.
   */
  lemma UpdateValid(c: Config, light: LightName, param: Param, value: Value)
    requires Valid(c) && Fits(light, param, value)
    ensures Valid(Update(c, light, param, value)) <==> InDomain(light, param, value)
  {
    ValidIffAllInDomain(c);
    var d := Update(c, light, param, value);
    ValidIffAllInDomain(d);
  }

  /** Toggling keeps a valid configuration valid. */
  lemma ToggleValid(c: Config, light: LightName)
    requires Valid(c) && HasSwitch(light)
    ensures Valid(Toggle(c, light))
  {
  }

  /** A colour the picker cannot deliver (upper-case digits) is stored as given and leaves the configuration invalid. */
  lemma UpdateKeepsUnpickableColor()
    ensures var d := Update(Default, Background, Color, Text("#00B300"));
      Get(d, Background, Color) == Some(Text("#00B300")) && !Valid(d)
  {
    var d := Update(Default, Background, Color, Text("#00B300"));
    assert !ColorConverter.IsLowerHexDigit(d.background.color[3]);
  }

  /** No clamping: an out-of-range intensity is stored as given and leaves the configuration invalid. */
  lemma UpdateDoesNotClamp()
    ensures var d := Update(Default, Main, Intensity, Num(500));
      Get(d, Main, Intensity) == Some(Num(500)) && !Valid(d)
  {
  }
}
