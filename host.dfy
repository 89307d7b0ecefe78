/**
 * The host objects the scripts read and write, reduced to the fields the
 * scripts touch: a view (id, image, properties), its image window (keywords,
 * visibility, iconic state, mask linkage), the instance parameter store and
 * the context a script is launched in.
 *
 * Only main views are modelled: every window owns exactly one view, its
 * `mainView`, and that view's `window` field points back at it once the
 * window is built (`Attached`).
 */
module Host {
  import opened Wrappers

  /** A FITS keyword of a window: its name and its value with quotes and blanks stripped. */
  datatype Keyword = Keyword(name: string, strippedValue: string)

  /** A view property value; what it holds is the host's business. */
  type PropertyValue(==)

  /** A named view property. */
  datatype Property = Property(name: string, value: PropertyValue)

  /** One pixel sample; the scripts only ever copy samples. */
  type Sample

  /**
   * The image of a view: geometry, sample format and the samples themselves.
   * `width` and `height` are plain integers because the host may report 0.
   */
  datatype Image = Image(
    width: int,
    height: int,
    numberOfChannels: int,
    bitsPerSample: int,
    isReal: bool,
    isColor: bool,
    pixels: seq<Sample>)

  /** The value of property `name`: the first entry with that name, as the host's `propertyValue` returns it. */
  function Lookup(ps: seq<Property>, name: string): (r: Option<PropertyValue>)
  {
    if ps == [] then None
    else if ps[0].name == name then Some(ps[0].value)
    else Lookup(ps[1..], name)
  }

  /** The property list after a successful `setPropertyValue`: an existing entry is overwritten in place, a new one is appended. */
  function SetProperty(ps: seq<Property>, name: string, value: PropertyValue): (r: seq<Property>)
  {
    if ps == [] then [Property(name, value)]
    else if ps[0].name == name then [Property(name, value)] + ps[1..]
    else [ps[0]] + SetProperty(ps[1..], name, value)
  }

  /** Setting a property makes it read back with the new value and leaves every other property as it was. */
  lemma {:induction false} LookupAfterSet(ps: seq<Property>, name: string, value: PropertyValue, other: string)
    ensures Lookup(SetProperty(ps, name, value), other) == if other == name then Some(value) else Lookup(ps, other)
  {
    if ps != [] && ps[0].name != name {
      LookupAfterSet(ps[1..], name, value, other);
      assert SetProperty(ps, name, value)[1..] == SetProperty(ps[1..], name, value);
    }
  }

  /** A view: a named image with properties, shown in `window`. */
  class View {
    var id: string
    var window: ImageWindow?
    const isMainView: bool
    var image: Image
    var properties: seq<Property>

    /**
     * A main view not yet attached to its window. Which properties the host
     * itself gives a fresh view is not specified.
     */
    constructor (id: string, image: Image)
      ensures this.id == id && this.image == image
      ensures window == null && isMainView
    {
      this.id := id;
      this.image := image;
      this.isMainView := true;
      this.window := null;
      this.properties := [];
    }

    /**
     * `setPropertyValue`: the host refuses some property names (reserved or
     * computed ones) by throwing; `accepts` says which it takes. On a
     * refusal nothing changes and `ok` is false.
     */
    method SetPropertyValue(name: string, value: PropertyValue, accepts: string -> bool) returns (ok: bool)
      modifies this`properties
      ensures ok == accepts(name)
      ensures properties == if ok then SetProperty(old(properties), name, value) else old(properties)
    {
      ok := accepts(name);
      if ok {
        properties := SetProperty(properties, name, value);
      }
    }
  }

  /** An image window: the container of a main view, with the window-level keywords and mask linkage. */
  class ImageWindow {
    const mainView: View
    var keywords: seq<Keyword>
    var visible: bool
    var iconic: bool
    var maskEnabled: bool
    var maskInverted: bool
    var maskVisible: bool
    var mask: ImageWindow?

    /**
     * `new ImageWindow(w, h, channels, bps, isReal, isColor, id)`: a hidden
     * window whose main view has the given id and an image of the given
     * format. The samples of a fresh image are not modelled (empty), and
     * nothing is promised about the properties the host gives its main view.
     */
    constructor (width: int, height: int, numberOfChannels: int, bitsPerSample: int,
                 isReal: bool, isColor: bool, id: string)
      ensures fresh(mainView)
      ensures mainView.window == this && mainView.id == id && mainView.isMainView
      ensures mainView.image == Image(width, height, numberOfChannels, bitsPerSample, isReal, isColor, [])
      ensures keywords == [] && !visible && !iconic
    {
      mainView := new View(id, Image(width, height, numberOfChannels, bitsPerSample, isReal, isColor, []));
      keywords := [];
      visible := false;
      iconic := false;
      maskEnabled := false;
      maskInverted := false;
      maskVisible := false;
      mask := null;
      new;
      mainView.window := this;
    }

    /** `iconize()`: turns the window into an icon; nothing else changes. */
    method Iconize()
      modifies this`iconic
      ensures iconic
    {
      iconic := true;
    }

    /** `show()`: makes the window visible; nothing else changes. */
    method Show()
      modifies this`visible
      ensures visible
    {
      visible := true;
    }
  }

  /** The main views of the open windows. */
  function MainViews(windows: seq<ImageWindow>): set<View>
  {
    set w | w in windows :: w.mainView
  }

  /** Every window's main view points back at that window. */
  ghost predicate Attached(windows: seq<ImageWindow>)
    reads MainViews(windows)
  {
    forall w :: w in windows ==> w.mainView.window == w
  }

  /**
   * The window whose main view has id `id`, searching the open windows in
   * order: the lookup behind `View.viewById`. Ids are unique among open
   * views in the host; when they are not, the first match is taken.
   */
  function WindowById(windows: seq<ImageWindow>, id: string): (r: Option<ImageWindow>)
    reads MainViews(windows)
    ensures r.Some? ==> r.value in windows && r.value.mainView.id == id
    ensures r.None? <==> forall w :: w in windows ==> w.mainView.id != id
  {
    if windows == [] then None
    else if windows[0].mainView.id == id then Some(windows[0])
    else WindowById(windows[1..], id)
  }

  /** `View.viewById(id)`: the main view with that id, if any window has one. */
  function ViewById(windows: seq<ImageWindow>, id: string): (r: Option<View>)
    reads MainViews(windows)
    ensures r.Some? <==> exists w :: w in windows && w.mainView.id == id
    ensures r.Some? ==> r.value.id == id
  {
    match WindowById(windows, id)
    case None => None
    case Some(w) => Some(w.mainView)
  }

  /** A value stored in a script instance: the scripts store strings and booleans. */
  datatype Value = Text(text: string) | Flag(flag: bool)

  /** The instance parameter store (`Parameters`), as a map from parameter name to stored value. */
  class ParameterStore {
    var values: map<string, Value>

    constructor (values: map<string, Value>)
      ensures this.values == values
    {
      this.values := values;
    }
  }

  /**
   * `if (Parameters.has(key)) field = Parameters.getString(key)`: the new
   * value of a string field, the current one when the key is absent, and
   * None when the stored value is not a string (the host raises an error).
   */
  function ReadText(values: map<string, Value>, key: string, current: string): (r: Option<string>)
    ensures key !in values ==> r == Some(current)
    ensures key in values ==> (r.Some? <==> values[key].Text?)
    ensures key in values && values[key].Text? ==> r == Some(values[key].text)
  {
    if key !in values then Some(current)
    else match values[key]
      case Text(s) => Some(s)
      case Flag(_) => None
  }

  /** The same for `Parameters.getBoolean` and a boolean field. */
  function ReadFlag(values: map<string, Value>, key: string, current: bool): (r: Option<bool>)
    ensures key !in values ==> r == Some(current)
    ensures key in values ==> (r.Some? <==> values[key].Flag?)
    ensures key in values && values[key].Flag? ==> r == Some(values[key].flag)
  {
    if key !in values then Some(current)
    else match values[key]
      case Flag(b) => Some(b)
      case Text(_) => None
  }

  /**
   * How a script is launched: on a target view (a process icon dropped on
   * a view), in the global context, or directly (the dialog opens).
   */
  datatype Context = ViewTarget(target: View) | GlobalTarget | Direct
}
