/**
 * CloneWithSuffix: clones a target view under the id `target.id + suffix`
 * and, when asked to, iconizes the clone.
 */
module CloneWithSuffix {
  import opened Wrappers
  import opened Host
  import AstroShedUtils

  // ---------------------------------------------------------------------
  // Script parameters and their instance round trip
  // ---------------------------------------------------------------------

  /** A snapshot of the script's parameter object. */
  datatype Settings = Settings(suffix: string, iconizeAfterClone: bool)

  /** The parameter object's initial field values. */
  const Defaults := Settings("", false)

  /** The store after `save`: both parameters are written, every other entry stays. */
  function Saved(values: map<string, Value>, s: Settings): (r: map<string, Value>)
    ensures r.Keys == values.Keys + {"suffix", "iconizeAfterClone"}
    ensures r["suffix"] == Text(s.suffix) && r["iconizeAfterClone"] == Flag(s.iconizeAfterClone)
    ensures forall k :: k in values && k !in {"suffix", "iconizeAfterClone"} ==> r[k] == values[k]
  {
    values["suffix" := Text(s.suffix)]["iconizeAfterClone" := Flag(s.iconizeAfterClone)]
  }

  /** What `load` leaves in the parameter object, and whether it completed without a type error. */
  datatype Loaded = Loaded(settings: Settings, ok: bool)

  /**
   * `load`: each present key overwrites its field, suffix first; an absent
   * key leaves its field alone; a stored value of the wrong type raises an
   * error that ends the load with the suffix possibly already assigned.
   */
  function Load(values: map<string, Value>, current: Settings): Loaded
  {
    match ReadText(values, "suffix", current.suffix)
    case None => Loaded(current, false)
    case Some(x) =>
      var s1 := current.(suffix := x);
      match ReadFlag(values, "iconizeAfterClone", s1.iconizeAfterClone)
      case None => Loaded(s1, false)
      case Some(b) => Loaded(s1.(iconizeAfterClone := b), true)
  }

  /** `save` followed by `load` restores both parameters. */
  lemma LoadAfterSave(values: map<string, Value>, s: Settings, current: Settings)
    ensures Load(Saved(values, s), current) == Loaded(s, true)
  {
  }

  /** A `load` into a fresh parameter object from a store without the keys leaves the defaults `""` and `false`. */
  lemma LoadKeepsDefaults(values: map<string, Value>)
    requires "suffix" !in values && "iconizeAfterClone" !in values
    ensures Load(values, Defaults) == Loaded(Settings("", false), true)
  {
  }

  /** The script's global parameter object. */
  class CloneWithSuffixParameters {
    var suffix: string
    var iconizeAfterClone: bool

    function Current(): Settings
      reads this
    {
      Settings(suffix, iconizeAfterClone)
    }

    constructor ()
      ensures Current() == Defaults
    {
      suffix, iconizeAfterClone := "", false;
    }

    /** `save`: writes the parameters into the instance store. */
    method Save(store: ParameterStore)
      modifies store
      ensures store.values == Saved(old(store.values), Current())
    {
      store.values := store.values["suffix" := Text(suffix)];
      store.values := store.values["iconizeAfterClone" := Flag(iconizeAfterClone)];
    }

    /** `load`: reads the parameters present in the instance store into the fields. */
    method LoadFrom(store: ParameterStore) returns (ok: bool)
      modifies this
      ensures Loaded(Current(), ok) == Load(store.values, old(Current()))
    {
      ok := false;
      if "suffix" in store.values {
        if !store.values["suffix"].Text? { return; }
        suffix := store.values["suffix"].text;
      }
      if "iconizeAfterClone" in store.values {
        if !store.values["iconizeAfterClone"].Flag? { return; }
        iconizeAfterClone := store.values["iconizeAfterClone"].flag;
      }
      ok := true;
    }
  }

  // ---------------------------------------------------------------------
  // main
  // ---------------------------------------------------------------------

  /** The clone's id: the target id followed directly by the suffix, no separator (`Ha` and `_linear` give `Ha_linear`). */
  function CloneId(targetId: string, suffix: string): (r: string)
    ensures targetId <= r && |r| == |targetId| + |suffix| && r[|targetId|..] == suffix
  {
    targetId + suffix
  }

  /**
   * `main()`. On a target view: load the instance parameters, clone the
   * target under `target.id + suffix`, and iconize the clone's window when
   * `iconizeAfterClone` is set. In the global context: only load. Directly:
   * nothing here (the dialog is not modelled). Only the view-target branch
   * makes a clone. `loaded` is false when the load stopped on a stored
   * value of the wrong type, which ends the script.
   */
  method Run(context: Context, store: ParameterStore, params: CloneWithSuffixParameters, accepts: string -> bool)
    returns (loaded: bool, clone: Option<View>)
    requires context.ViewTarget? ==> context.target.window != null
    modifies params
    ensures context.Direct? ==> loaded && params.Current() == old(params.Current())
    ensures !context.Direct? ==> Loaded(params.Current(), loaded) == Load(store.values, old(params.Current()))
    ensures clone.Some? <==> context.ViewTarget? && loaded
    ensures clone.Some? ==>
      && fresh(clone.value) && clone.value.window != null && fresh(clone.value.window)
      && AstroShedUtils.IsCloneOf(clone.value, context.target, CloneId(context.target.id, params.suffix), accepts)
      && clone.value.window.visible
      && (clone.value.window.iconic <==> params.iconizeAfterClone)
  {
    loaded, clone := true, None;
    match context
    case ViewTarget(target) =>
      loaded := params.LoadFrom(store);
      if !loaded { return; }
      var clonedView := AstroShedUtils.CloneView(target, CloneId(target.id, params.suffix), accepts);
      if params.iconizeAfterClone {
        clonedView.window.Iconize();
      }
      clone := Some(clonedView);
    case GlobalTarget =>
      loaded := params.LoadFrom(store);
    case Direct =>
  }
}
