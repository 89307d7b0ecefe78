/**
 * SmartRenameView: renames a view after the FILTER keyword of its window,
 * as `prefix + FILTER + suffix`, on one target view or on every visible
 * main view.
 */
module SmartRenameView {
  import opened Wrappers
  import opened Host
  import JsString

  // ---------------------------------------------------------------------
  // Script parameters and their instance round trip
  // ---------------------------------------------------------------------

  /** A snapshot of the script's parameter object. */
  datatype Settings = Settings(prefix: string, suffix: string, batchMode: bool)

  /** The parameter object's initial field values. */
  const Defaults := Settings("", "", false)

  /** The store after `save`: the three parameters are written, every other entry stays. */
  function Saved(values: map<string, Value>, s: Settings): (r: map<string, Value>)
    ensures r.Keys == values.Keys + {"prefix", "suffix", "batchMode"}
    ensures r["prefix"] == Text(s.prefix) && r["suffix"] == Text(s.suffix) && r["batchMode"] == Flag(s.batchMode)
    ensures forall k :: k in values && k !in {"prefix", "suffix", "batchMode"} ==> r[k] == values[k]
  {
    values["prefix" := Text(s.prefix)]["suffix" := Text(s.suffix)]["batchMode" := Flag(s.batchMode)]
  }

  /** What `load` leaves in the parameter object, and whether it read every present key without a type error. */
  datatype Loaded = Loaded(settings: Settings, ok: bool)

  /**
   * `load`: each present key overwrites its field, in the order prefix,
   * suffix, batchMode; an absent key leaves its field alone. A stored value
   * of the wrong type makes the host raise an error, which ends the load
   * with the fields read so far already assigned.
   */
  function Load(values: map<string, Value>, current: Settings): Loaded
  {
    match ReadText(values, "prefix", current.prefix)
    case None => Loaded(current, false)
    case Some(p) =>
      var s1 := current.(prefix := p);
      match ReadText(values, "suffix", s1.suffix)
      case None => Loaded(s1, false)
      case Some(x) =>
        var s2 := s1.(suffix := x);
        match ReadFlag(values, "batchMode", s2.batchMode)
        case None => Loaded(s2, false)
        case Some(b) => Loaded(s2.(batchMode := b), true)
  }

  /** `save` followed by `load` restores every parameter, whatever the object held before the load. */
  lemma LoadAfterSave(values: map<string, Value>, s: Settings, current: Settings)
    ensures Load(Saved(values, s), current) == Loaded(s, true)
  {
  }

  /** A `load` from a store that holds none of the keys changes nothing. */
  lemma LoadFromEmptyStore(values: map<string, Value>, current: Settings)
    requires "prefix" !in values && "suffix" !in values && "batchMode" !in values
    ensures Load(values, current) == Loaded(current, true)
  {
  }

  /** A successful `load` sets each field to its stored value when the key is present and keeps it when absent. */
  lemma LoadFieldByField(values: map<string, Value>, current: Settings)
    ensures var r := Load(values, current);
      r.ok ==>
        && r.settings.prefix == (if "prefix" in values then values["prefix"].text else current.prefix)
        && r.settings.suffix == (if "suffix" in values then values["suffix"].text else current.suffix)
        && r.settings.batchMode == (if "batchMode" in values then values["batchMode"].flag else current.batchMode)
  {
  }

  /** The script's global parameter object. */
  class SmartRenameViewParameters {
    var prefix: string
    var suffix: string
    var batchMode: bool

    function Current(): Settings
      reads this
    {
      Settings(prefix, suffix, batchMode)
    }

    constructor ()
      ensures Current() == Defaults
    {
      prefix, suffix, batchMode := "", "", false;
    }

    /** `save`: writes the current parameters into the instance store. */
    method Save(store: ParameterStore)
      modifies store
      ensures store.values == Saved(old(store.values), Current())
    {
      store.values := store.values["prefix" := Text(prefix)];
      store.values := store.values["suffix" := Text(suffix)];
      store.values := store.values["batchMode" := Flag(batchMode)];
    }

    /** `load`: reads the parameters present in the instance store into the fields. */
    method LoadFrom(store: ParameterStore) returns (ok: bool)
      modifies this
      ensures Loaded(Current(), ok) == Load(store.values, old(Current()))
    {
      ok := false;
      if "prefix" in store.values {
        if !store.values["prefix"].Text? { return; }
        prefix := store.values["prefix"].text;
      }
      if "suffix" in store.values {
        if !store.values["suffix"].Text? { return; }
        suffix := store.values["suffix"].text;
      }
      if "batchMode" in store.values {
        if !store.values["batchMode"].Flag? { return; }
        batchMode := store.values["batchMode"].flag;
      }
      ok := true;
    }
  }

  // ---------------------------------------------------------------------
  // keywordValue
  // ---------------------------------------------------------------------

  /** The stripped value of the first keyword named `name`, in keyword order; None plays the part of `null`. */
  function KeywordLookup(keywords: seq<Keyword>, name: string): Option<string>
  {
    if keywords == [] then None
    else if keywords[0].name == name then Some(keywords[0].strippedValue)
    else KeywordLookup(keywords[1..], name)
  }

  /** The lookup finds a value exactly when some keyword has the name, and then it is the value of the first such keyword. */
  lemma {:induction false} KeywordLookupIsFirstMatch(keywords: seq<Keyword>, name: string)
    ensures KeywordLookup(keywords, name).None? <==> forall i :: 0 <= i < |keywords| ==> keywords[i].name != name
    ensures KeywordLookup(keywords, name).Some? ==>
      exists i :: 0 <= i < |keywords| && keywords[i].name == name
        && KeywordLookup(keywords, name).value == keywords[i].strippedValue
        && forall j :: 0 <= j < i ==> keywords[j].name != name
  {
    if keywords != [] && keywords[0].name != name {
      KeywordLookupIsFirstMatch(keywords[1..], name);
      if KeywordLookup(keywords, name).Some? {
        var i :| 0 <= i < |keywords[1..]| && keywords[1..][i].name == name
          && KeywordLookup(keywords[1..], name).value == keywords[1..][i].strippedValue
          && forall j :: 0 <= j < i ==> keywords[1..][j].name != name;
        assert keywords[i + 1].name == name;
        assert forall j :: 1 <= j < i + 1 ==> keywords[j].name == keywords[1..][j - 1].name;
      } else {
        forall i | 0 <= i < |keywords| ensures keywords[i].name != name {
          if i > 0 { assert keywords[i] == keywords[1..][i - 1]; }
        }
      }
    } else if keywords != [] {
      assert keywords[0].name == name;
    }
  }

  /** `keywordValue(window, name)`: the linear search over the window's keywords. */
  method KeywordValue(window: ImageWindow, name: string) returns (r: Option<string>)
    ensures r == KeywordLookup(window.keywords, name)
  {
    var keywords := window.keywords;
    var i := 0;
    while i < |keywords|
      invariant 0 <= i <= |keywords|
      invariant KeywordLookup(keywords, name) == KeywordLookup(keywords[i..], name)
    {
      assert keywords[i..][1..] == keywords[i + 1..];
      if keywords[i].name == name {
        return Some(keywords[i].strippedValue);
      }
      i := i + 1;
    }
    return None;
  }

  // ---------------------------------------------------------------------
  // renameView
  // ---------------------------------------------------------------------

  /** Which branch `renameView` takes: the rename, or one of its two warnings. */
  datatype RenameOutcome =
    | Renamed(newId: string)
    | AlreadyStartsWithFilter(filter: string)
    | UnknownFilter

  /** The branch `renameView` takes for a view with id `id` whose window carries `keywords`. */
  function RenameDecision(id: string, keywords: seq<Keyword>, prefix: string, suffix: string): RenameOutcome
  {
    match KeywordLookup(keywords, "FILTER")
    case None => UnknownFilter
    case Some(filter) =>
      if filter == "" then UnknownFilter
      else if JsString.IndexOf(id, filter) != 0 then Renamed(prefix + filter + suffix)
      else AlreadyStartsWithFilter(filter)
  }

  /** The view id after `renameView`. */
  function RenamedId(id: string, keywords: seq<Keyword>, prefix: string, suffix: string): string
  {
    match RenameDecision(id, keywords, prefix, suffix)
    case Renamed(newId) => newId
    case _ => id
  }

  /**
   * The rename rule: the id becomes `prefix + FILTER + suffix` exactly when
   * the window has a non-empty FILTER keyword that the id does not already
   * start with; otherwise it is left as it was.
   */
  lemma RenamedIdRule(id: string, keywords: seq<Keyword>, prefix: string, suffix: string)
    ensures var filter := KeywordLookup(keywords, "FILTER");
      RenamedId(id, keywords, prefix, suffix) ==
        if filter.Some? && filter.value != "" && !(filter.value <= id)
        then prefix + filter.value + suffix
        else id
  {
    var filter := KeywordLookup(keywords, "FILTER");
    if filter.Some? {
      JsString.IndexOfZeroIffPrefix(id, filter.value);
    }
  }

  /** Renaming twice with the same keywords, prefix and suffix gives the id a single rename gives. */
  lemma RenameIdempotent(id: string, keywords: seq<Keyword>, prefix: string, suffix: string)
    ensures var once := RenamedId(id, keywords, prefix, suffix);
      RenamedId(once, keywords, prefix, suffix) == once
  {
    var once := RenamedId(id, keywords, prefix, suffix);
    RenamedIdRule(id, keywords, prefix, suffix);
    RenamedIdRule(once, keywords, prefix, suffix);
  }

  /**
   * `renameView(view, prefix, suffix)`: reassigns the view's id by the
   * rename rule. The returned outcome says which branch ran (the rename or
   * the warning printed); only the id of `view` can change.
   */
  method RenameView(view: View, prefix: string, suffix: string) returns (outcome: RenameOutcome)
    requires view.window != null
    modifies view`id
    ensures outcome == RenameDecision(old(view.id), view.window.keywords, prefix, suffix)
    ensures view.id == RenamedId(old(view.id), view.window.keywords, prefix, suffix)
  {
    var filterName := KeywordValue(view.window, "FILTER");
    if filterName.Some? && filterName.value != "" {
      if JsString.IndexOf(view.id, filterName.value) != 0 {
        view.id := prefix + filterName.value + suffix;
        outcome := Renamed(view.id);
      } else {
        outcome := AlreadyStartsWithFilter(filterName.value);
      }
    } else {
      outcome := UnknownFilter;
    }
  }

  // ---------------------------------------------------------------------
  // getAllMainViews
  // ---------------------------------------------------------------------

  /** A window whose main view `getAllMainViews` collects: a main view, shown, not an icon. */
  predicate Listed(w: ImageWindow)
    reads w
  {
    w.mainView.isMainView && w.visible && !w.iconic
  }

  /** The main views of the listed windows, in window order. */
  function VisibleMainViews(windows: seq<ImageWindow>): seq<View>
    reads windows
  {
    if windows == [] then []
    else
      var last := windows[|windows| - 1];
      VisibleMainViews(windows[..|windows| - 1]) + (if Listed(last) then [last.mainView] else [])
  }

  /** A view is collected exactly when it is the main view of some listed window. */
  lemma {:induction false} VisibleMainViewsMembers(windows: seq<ImageWindow>, v: View)
    ensures v in VisibleMainViews(windows) <==> exists w :: w in windows && Listed(w) && w.mainView == v
  {
    if windows != [] {
      var init := windows[..|windows| - 1];
      VisibleMainViewsMembers(init, v);
      assert windows == init + [windows[|windows| - 1]];
    }
  }

  /** The collection keeps window order: collecting over two runs of windows is collecting over each in turn. */
  lemma {:induction false} VisibleMainViewsAppend(a: seq<ImageWindow>, b: seq<ImageWindow>)
    ensures VisibleMainViews(a + b) == VisibleMainViews(a) + VisibleMainViews(b)
  {
    if b == [] {
      assert a + b == a;
    } else {
      var b' := b[..|b| - 1];
      VisibleMainViewsAppend(a, b');
      assert (a + b)[..|a + b| - 1] == a + b';
    }
  }

  /** `getAllMainViews()`: pushes the main view of each listed window, scanning the windows in order. */
  method GetAllMainViews(windows: seq<ImageWindow>) returns (mainViews: seq<View>)
    ensures mainViews == VisibleMainViews(windows)
  {
    mainViews := [];
    var i := 0;
    while i < |windows|
      invariant 0 <= i <= |windows|
      invariant mainViews == VisibleMainViews(windows[..i])
    {
      assert windows[..i + 1][..i] == windows[..i];
      if windows[i].mainView.isMainView && windows[i].visible && !windows[i].iconic {
        mainViews := mainViews + [windows[i].mainView];
      }
      i := i + 1;
    }
    assert windows[..i] == windows;
  }

  // ---------------------------------------------------------------------
  // applyGlobally
  // ---------------------------------------------------------------------

  /** Every view in the list has a window (true of every main view in the host). */
  predicate HaveWindows(views: seq<View>)
    reads views
  {
    forall v :: v in views ==> v.window != null
  }

  /**
   * Renames each view of the list in turn. Each view ends with the id one
   * rename gives it, even if it occurs in the list more than once.
   */
  method RenameAll(views: seq<View>, prefix: string, suffix: string)
    requires HaveWindows(views)
    modifies (set v | v in views)`id
    ensures forall v :: v in views ==> v.id == RenamedId(old(v.id), v.window.keywords, prefix, suffix)
  {
    var i := 0;
    while i < |views|
      invariant 0 <= i <= |views|
      invariant forall v :: v in views[..i] ==> v.id == RenamedId(old(v.id), v.window.keywords, prefix, suffix)
      invariant forall v :: v in views && v !in views[..i] ==> v.id == old(v.id)
    {
      var v := views[i];
      if v in views[..i] {
        RenameIdempotent(old(v.id), v.window.keywords, prefix, suffix);
      }
      var _ := RenameView(v, prefix, suffix);
      assert views[..i + 1] == views[..i] + [v];
      i := i + 1;
    }
    assert views[..i] == views;
  }

  /** `applyGlobally()`: renames every visible main view with the script's prefix and suffix. */
  method ApplyGlobally(windows: seq<ImageWindow>, prefix: string, suffix: string)
    requires Attached(windows)
    modifies MainViews(windows)`id
    ensures forall w :: w in windows ==>
      w.mainView.id == if Listed(w) then RenamedId(old(w.mainView.id), w.mainView.window.keywords, prefix, suffix)
                       else old(w.mainView.id)
  {
    var views := GetAllMainViews(windows);
    forall v | v in views ensures v.window != null && v in MainViews(windows) {
      VisibleMainViewsMembers(windows, v);
    }
    RenameAll(views, prefix, suffix);
    forall w | w in windows
      ensures w.mainView.id == if Listed(w) then RenamedId(old(w.mainView.id), w.mainView.window.keywords, prefix, suffix)
                               else old(w.mainView.id)
    {
      VisibleMainViewsMembers(windows, w.mainView);
    }
  }

  // ---------------------------------------------------------------------
  // main
  // ---------------------------------------------------------------------

  /**
   * `main()`. On a target view: load the instance parameters, rename the
   * target, and in batch mode rename every visible main view as well. In
   * the global context: only load. Directly: nothing here (the dialog is
   * not modelled). `loaded` is false when the load stopped on a stored
   * value of the wrong type, which ends the script.
   */
  method Run(context: Context, store: ParameterStore, params: SmartRenameViewParameters, windows: seq<ImageWindow>)
    returns (loaded: bool)
    requires Attached(windows)
    requires context.ViewTarget? ==> context.target in MainViews(windows)
    modifies params, MainViews(windows)`id
    ensures context.Direct? ==> loaded && params.Current() == old(params.Current())
    ensures !context.Direct? ==> Loaded(params.Current(), loaded) == Load(store.values, old(params.Current()))
    ensures !(context.ViewTarget? && loaded) ==> forall w :: w in windows ==> w.mainView.id == old(w.mainView.id)
    ensures context.ViewTarget? && loaded ==> forall w :: w in windows ==>
      w.mainView.id ==
        if w.mainView == context.target || (params.batchMode && Listed(w))
        then RenamedId(old(w.mainView.id), w.mainView.window.keywords, params.prefix, params.suffix)
        else old(w.mainView.id)
  {
    loaded := true;
    match context
    case ViewTarget(target) =>
      loaded := params.LoadFrom(store);
      if !loaded { return; }
      var _ := RenameView(target, params.prefix, params.suffix);
      if params.batchMode {
        ApplyGlobally(windows, params.prefix, params.suffix);
        forall w | w in windows && w.mainView == target && Listed(w)
          ensures w.mainView.id == RenamedId(old(w.mainView.id), w.mainView.window.keywords, params.prefix, params.suffix)
        {
          RenameIdempotent(old(w.mainView.id), w.mainView.window.keywords, params.prefix, params.suffix);
        }
      }
    case GlobalTarget =>
      loaded := params.LoadFrom(store);
    case Direct =>
  }
}
