/**
 * The shared `cloneView` helper: builds a new window whose main view
 * duplicates a source view's image, mask linkage, keywords and properties,
 * and shows it.
 */
module AstroShedUtils {
  import opened Wrappers
  import opened Host

  /** `Math.max` on integers. */
  function Max(a: int, b: int): int
  {
    if a < b then b else a
  }

  /** The channel count of the new image: three for colour, one otherwise. */
  function ChannelCount(isColor: bool): int
  {
    if isColor then 3 else 1
  }

  /**
   * The property list of the new view once the first `n` source properties
   * have been tried, in source order, starting from the list `initial` the
   * host gave the fresh view: each value is read back from the source by
   * name and set on the new view, unless the host refuses the name.
   */
  function CopiedProperties(initial: seq<Property>, source: seq<Property>, n: nat, accepts: string -> bool): seq<Property>
    requires n <= |source|
  {
    if n == 0 then initial
    else
      var copied := CopiedProperties(initial, source, n - 1, accepts);
      var name := source[n - 1].name;
      if !accepts(name) then copied
      else match Lookup(source, name)
        case Some(value) => SetProperty(copied, name, value)
        case None => copied
  }

  /** A property name is found exactly when some entry carries it. */
  lemma {:induction false} LookupFindsPresent(ps: seq<Property>, name: string)
    ensures Lookup(ps, name).Some? <==> exists i :: 0 <= i < |ps| && ps[i].name == name
  {
    if ps != [] && ps[0].name != name {
      LookupFindsPresent(ps[1..], name);
      if Lookup(ps, name).Some? {
        var i :| 0 <= i < |ps[1..]| && ps[1..][i].name == name;
        assert ps[i + 1].name == name;
      } else {
        forall i | 0 <= i < |ps| ensures ps[i].name != name {
          if i > 0 { assert ps[i] == ps[1..][i - 1]; }
        }
      }
    } else if ps != [] {
      assert ps[0].name == name;
    }
  }

  /**
   * After trying the first `n` source properties, a name reads back with
   * the source's value when the host accepts it and it is among those `n`,
   * and with its value in `initial` otherwise; a refused name does not stop
   * the later ones.
   */
  lemma {:induction false} CopiedPropertiesLookup(initial: seq<Property>, source: seq<Property>, n: nat,
                                                  accepts: string -> bool, name: string)
    requires n <= |source|
    ensures Lookup(CopiedProperties(initial, source, n, accepts), name) ==
      if accepts(name) && exists i :: 0 <= i < n && source[i].name == name
      then Lookup(source, name)
      else Lookup(initial, name)
  {
    if n > 0 {
      CopiedPropertiesLookup(initial, source, n - 1, accepts, name);
      var copied := CopiedProperties(initial, source, n - 1, accepts);
      var last := source[n - 1].name;
      LookupFindsPresent(source, last);
      if accepts(last) {
        LookupAfterSet(copied, last, Lookup(source, last).value, name);
      }
      if name != last {
        assert (exists i :: 0 <= i < n && source[i].name == name)
          <==> (exists i :: 0 <= i < n - 1 && source[i].name == name);
      }
    }
  }

  /**
   * Property fidelity of a whole clone: every source property the host
   * accepts reads back with the source's value; every other name keeps
   * what the host gave the fresh view.
   */
  lemma CloneProperties(initial: seq<Property>, source: seq<Property>, accepts: string -> bool, name: string)
    ensures Lookup(CopiedProperties(initial, source, |source|, accepts), name) ==
      if accepts(name) && Lookup(source, name).Some? then Lookup(source, name) else Lookup(initial, name)
  {
    CopiedPropertiesLookup(initial, source, |source|, accepts, name);
    LookupFindsPresent(source, name);
  }

  /**
   * `newView` is what `cloneView(source, newViewId)` builds: the requested
   * id, the source geometry clamped to at least 1, the channel count of the
   * colour mode, the same sample format and samples, the same mask flags
   * and the same mask window (shared, not copied), the same keywords, and
   * every source property the host accepts, with the source's value.
   */
  ghost predicate IsCloneOf(newView: View, source: View, newViewId: string, accepts: string -> bool)
    reads newView, newView.window, source, source.window
  {
    && source.window != null
    && newView.window != null
    && newView.window.mainView == newView
    && newView.id == newViewId
    && newView.image.width == Max(1, source.image.width)
    && newView.image.height == Max(1, source.image.height)
    && newView.image.numberOfChannels == ChannelCount(source.image.isColor)
    && newView.image.isColor == source.image.isColor
    && newView.image.bitsPerSample == source.image.bitsPerSample
    && newView.image.isReal == source.image.isReal
    && newView.image.pixels == source.image.pixels
    && newView.window.maskEnabled == source.window.maskEnabled
    && newView.window.maskInverted == source.window.maskInverted
    && newView.window.maskVisible == source.window.maskVisible
    && newView.window.mask == source.window.mask
    && newView.window.keywords == source.window.keywords
    && (forall name :: accepts(name) && Lookup(source.properties, name).Some? ==>
          Lookup(newView.properties, name) == Lookup(source.properties, name))
  }

  /**
   * `cloneView(sourceView, newViewId)`. The new window is hidden while it
   * is filled in and shown as the last step; the source view and its window
   * are only read. `accepts` is the host's rule for which property names
   * `setPropertyValue` takes; a refused one is skipped and the loop goes on.
   */
  method CloneView(sourceView: View, newViewId: string, accepts: string -> bool) returns (newView: View)
    requires sourceView.window != null
    ensures fresh(newView) && newView.window != null && fresh(newView.window)
    ensures IsCloneOf(newView, sourceView, newViewId, accepts)
    ensures newView.window.visible && !newView.window.iconic
    ensures unchanged(sourceView, sourceView.window)
  {
    var inIW := sourceView.window;
    var w := Max(1, sourceView.image.width);
    var h := Max(1, sourceView.image.height);
    var isColor := sourceView.image.isColor;
    var bps := sourceView.image.bitsPerSample;
    var isFS := sourceView.image.isReal;
    var channelCount := ChannelCount(isColor);
    var outIW := new ImageWindow(w, h, channelCount, bps, isFS, isColor, newViewId);
    newView := outIW.mainView;
    ghost var initial := newView.properties;
    // image.apply: the new image takes the source's samples
    newView.image := newView.image.(pixels := sourceView.image.pixels);
    outIW.maskEnabled := inIW.maskEnabled;
    outIW.maskInverted := inIW.maskInverted;
    outIW.maskVisible := inIW.maskVisible;
    outIW.mask := inIW.mask;
    outIW.keywords := inIW.keywords;

    var i := 0;
    while i < |sourceView.properties|
      invariant 0 <= i <= |sourceView.properties|
      invariant newView.properties == CopiedProperties(initial, sourceView.properties, i, accepts)
      invariant !outIW.visible
      modifies newView`properties
    {
      var propertyName := sourceView.properties[i].name;
      var value := Lookup(sourceView.properties, propertyName);
      if value.Some? {
        // a refused name comes back as ok == false and is skipped
        var _ := newView.SetPropertyValue(propertyName, value.value, accepts);
      }
      i := i + 1;
    }
    forall name | accepts(name) && Lookup(sourceView.properties, name).Some?
      ensures Lookup(newView.properties, name) == Lookup(sourceView.properties, name)
    {
      CloneProperties(initial, sourceView.properties, accepts, name);
    }
    outIW.Show();
  }
}
