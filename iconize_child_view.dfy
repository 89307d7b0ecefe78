/**
 * IconizeChildView: a child of a view `P` is the view named `P_<suffix>`;
 * the script iconizes the child of one target view, or of every parent
 * view in a list.
 */
module IconizeChildView {
  import opened Wrappers
  import opened Host
  import JsString

  // ---------------------------------------------------------------------
  // Script parameters and their instance round trip
  // ---------------------------------------------------------------------

  /** A snapshot of the script's parameter object. */
  datatype Settings = Settings(suffix: string)

  /** The parameter object's initial field value. */
  const Defaults := Settings("")

  /** The store after `save`: the suffix is written, every other entry stays. */
  function Saved(values: map<string, Value>, s: Settings): (r: map<string, Value>)
    ensures r.Keys == values.Keys + {"suffix"}
    ensures r["suffix"] == Text(s.suffix)
    ensures forall k :: k in values && k != "suffix" ==> r[k] == values[k]
  {
    values["suffix" := Text(s.suffix)]
  }

  /** What `load` leaves in the parameter object, and whether it completed without a type error. */
  datatype Loaded = Loaded(settings: Settings, ok: bool)

  /** `load`: a stored suffix replaces the current one; an absent key keeps it; a non-string value raises an error. */
  function Load(values: map<string, Value>, current: Settings): Loaded
  {
    match ReadText(values, "suffix", current.suffix)
    case None => Loaded(current, false)
    case Some(x) => Loaded(Settings(x), true)
  }

  /** `save` followed by `load` restores the suffix. */
  lemma LoadAfterSave(values: map<string, Value>, s: Settings, current: Settings)
    ensures Load(Saved(values, s), current) == Loaded(s, true)
  {
  }

  /** A `load` from a store without the key keeps the current suffix. */
  lemma LoadKeepsSuffixWhenAbsent(values: map<string, Value>, current: Settings)
    requires "suffix" !in values
    ensures Load(values, current) == Loaded(current, true)
  {
  }

  /** The script's global parameter object. */
  class IconizeCloneWithSuffixParameters {
    var suffix: string

    function Current(): Settings
      reads this
    {
      Settings(suffix)
    }

    constructor ()
      ensures Current() == Defaults
    {
      suffix := "";
    }

    /** `save`: writes the suffix into the instance store. */
    method Save(store: ParameterStore)
      modifies store
      ensures store.values == Saved(old(store.values), Current())
    {
      store.values := store.values["suffix" := Text(suffix)];
    }

    /** `load`: reads the suffix from the instance store when it is there. */
    method LoadFrom(store: ParameterStore) returns (ok: bool)
      modifies this
      ensures Loaded(Current(), ok) == Load(store.values, old(Current()))
    {
      ok := false;
      if "suffix" in store.values {
        if !store.values["suffix"].Text? { return; }
        suffix := store.values["suffix"].text;
      }
      ok := true;
    }
  }

  // ---------------------------------------------------------------------
  // Child naming and iconizing
  // ---------------------------------------------------------------------

  /** The id of the child of view `parentId`: the parent id, an underscore, then the suffix. */
  function ChildId(parentId: string, suffix: string): (r: string)
    ensures parentId <= r && |r| == |parentId| + 1 + |suffix|
    ensures r[|parentId|] == '_' && r[|parentId| + 1..] == suffix
  {
    parentId + "_" + suffix
  }

  /**
   * `iconizeView(id)`: iconizes the window of the view with that id. When
   * no view has the id, the failure is caught and nothing changes. The
   * window iconized, if any, is returned.
   */
  method IconizeView(windows: seq<ImageWindow>, viewIdToIconize: string) returns (iconized: Option<ImageWindow>)
    requires Attached(windows)
    modifies (set w | w in windows)`iconic
    ensures iconized == WindowById(windows, viewIdToIconize)
    ensures forall w :: w in windows ==> w.iconic == (old(w.iconic) || iconized == Some(w))
  {
    var view := ViewById(windows, viewIdToIconize);
    match view
    case None =>
      // `view.window` throws on the missing view; the catch swallows it
      iconized := None;
    case Some(v) =>
      v.window.Iconize();
      // iconizing a window leaves the main views, and so the lookup by id, as they were
      assert unchanged(MainViews(windows));
      iconized := Some(v.window);
  }

  /**
   * `executeOperation(view)`: iconizes the child of `view`. Only the iconic
   * flag of the child's window can change; the parent's own window is
   * never the one iconized.
   */
  method ExecuteOperation(windows: seq<ImageWindow>, view: View, suffix: string) returns (iconized: Option<ImageWindow>)
    requires Attached(windows)
    modifies (set w | w in windows)`iconic
    ensures iconized == WindowById(windows, ChildId(view.id, suffix))
    ensures forall w :: w in windows ==> w.iconic == (old(w.iconic) || iconized == Some(w))
    ensures view.window != null && view.window.mainView == view ==> view.window.iconic == old(view.window.iconic)
  {
    var cloneViewId := ChildId(view.id, suffix);
    iconized := IconizeView(windows, cloneViewId);
  }

  // ---------------------------------------------------------------------
  // Global apply
  // ---------------------------------------------------------------------

  /** `view.id.indexOf("_") <= 0`: the views the global apply treats as parents. */
  predicate IsParent(view: View)
    reads view
  {
    JsString.IndexOf(view.id, "_") <= 0
  }

  /** The parents among `views`, in list order. */
  function Parents(views: seq<View>): seq<View>
    reads set v | v in views
  {
    if views == [] then []
    else
      var last := views[|views| - 1];
      Parents(views[..|views| - 1]) + (if IsParent(last) then [last] else [])
  }

  /** A view is a parent exactly when its id has no underscore or starts with one. */
  lemma {:induction false} ParentsMembers(views: seq<View>, v: View)
    ensures v in Parents(views) <==> v in views && ('_' !in v.id || v.id[0] == '_')
  {
    JsString.IndexOfUnderscoreAtMostZero(v.id);
    if views != [] {
      var init := views[..|views| - 1];
      ParentsMembers(init, v);
      assert views == init + [views[|views| - 1]];
    }
  }

  /** The windows iconized for a list of parents: each parent's child window, when it exists. */
  ghost predicate IconizedFor(windows: seq<ImageWindow>, parents: seq<View>, suffix: string, w: ImageWindow)
    reads set v | v in parents
    reads MainViews(windows)
  {
    exists p :: p in parents && WindowById(windows, ChildId(p.id, suffix)) == Some(w)
  }

  /** Visiting one more parent adds exactly that parent's child window. */
  lemma IconizedForAppend(windows: seq<ImageWindow>, parents: seq<View>, p: View, suffix: string, w: ImageWindow)
    ensures IconizedFor(windows, parents + [p], suffix, w)
      <==> IconizedFor(windows, parents, suffix, w) || WindowById(windows, ChildId(p.id, suffix)) == Some(w)
  {
    if WindowById(windows, ChildId(p.id, suffix)) == Some(w) {
      assert p in parents + [p];
    }
  }

  /**
   * The body of the "Apply Global" button: walks the list in order and runs
   * `executeOperation` on each parent. The list is an input because the
   * script calls a `getAllMainViews` it never defines. `processed` is the
   * sequence of parents visited, the ones the console reports.
   */
  method ApplyGlobal(windows: seq<ImageWindow>, views: seq<View>, suffix: string) returns (processed: seq<View>)
    requires Attached(windows)
    modifies (set w | w in windows)`iconic
    ensures processed == Parents(views)
    ensures forall w :: w in windows ==> w.iconic == (old(w.iconic) || IconizedFor(windows, processed, suffix, w))
  {
    processed := [];
    var i := 0;
    while i < |views|
      invariant 0 <= i <= |views|
      invariant processed == Parents(views[..i])
      invariant forall w :: w in windows ==> w.iconic == (old(w.iconic) || IconizedFor(windows, processed, suffix, w))
    {
      assert views[..i + 1][..i] == views[..i];
      var view := views[i];
      if JsString.IndexOf(view.id, "_") <= 0 {
        label visit:
        var _ := ExecuteOperation(windows, view, suffix);
        // the main views, and so every lookup by id, are as they were before the visit
        assert unchanged@visit(MainViews(windows));
        forall w | w in windows
          ensures w.iconic == (old(w.iconic) || IconizedFor(windows, processed + [view], suffix, w))
        {
          assert old@visit(w.iconic) == (old(w.iconic) || IconizedFor(windows, processed, suffix, w));
          IconizedForAppend(windows, processed, view, suffix, w);
        }
        processed := processed + [view];
      }
      i := i + 1;
    }
    assert views[..i] == views;
  }

  // ---------------------------------------------------------------------
  // main
  // ---------------------------------------------------------------------

  /**
   * `main()`. On a target view: load the instance parameters and iconize
   * exactly the target's child. In the global context: only load. Directly:
   * nothing here (the dialog is not modelled). `loaded` is false when the
   * load stopped on a stored value of the wrong type, which ends the script.
   */
  method Run(context: Context, store: ParameterStore, params: IconizeCloneWithSuffixParameters, windows: seq<ImageWindow>)
    returns (loaded: bool, iconized: Option<ImageWindow>)
    requires Attached(windows)
    modifies params, (set w | w in windows)`iconic
    ensures context.Direct? ==> loaded && params.Current() == old(params.Current())
    ensures !context.Direct? ==> Loaded(params.Current(), loaded) == Load(store.values, old(params.Current()))
    ensures iconized == if context.ViewTarget? && loaded
                        then WindowById(windows, ChildId(context.target.id, params.suffix))
                        else None
    ensures forall w :: w in windows ==> w.iconic == (old(w.iconic) || iconized == Some(w))
  {
    loaded, iconized := true, None;
    match context
    case ViewTarget(target) =>
      loaded := params.LoadFrom(store);
      if !loaded { return; }
      iconized := ExecuteOperation(windows, target, params.suffix);
    case GlobalTarget =>
      loaded := params.LoadFrom(store);
    case Direct =>
  }
}
