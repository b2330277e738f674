/**
 * gs.ResourceManagerContext and gs.ResourceManager: resource contexts (the
 * name/data lists a scene records its resources in), and the manager that
 * caches resources by file path, keeps the list of all requested resources,
 * decides when everything is loaded, and evicts the resources of the current
 * context when they are disposed.
 */
module ResourceManager {
  import opened Common

  /** The kind of a resource object, fixed when it is created. */
  datatype Kind = Bitmap | Video | AudioBuffer | Live2DModel | Font | Other

  /**
   * A resource object (bitmap, video, audio buffer, ...). Loading is done by
   * the engine outside this model; only the flags the manager reads are kept.
   * `loaded` is None while the object has no `loaded` property at all.
   */
  class Resource {
    const kind: Kind
    /** The `filePath` that `getBitmap` records on the bitmaps it creates. */
    const filePath: Option<string>
    /** The `hue` that `getBitmap` records on the bitmaps it creates. */
    const hue: Option<int>
    var loaded: Option<bool>
    var disposed: bool

    constructor (kind: Kind, filePath: Option<string>, hue: Option<int>, loaded: Option<bool>)
      ensures this.kind == kind && this.filePath == filePath && this.hue == hue
      ensures this.loaded == loaded && !disposed
    {
      this.kind := kind;
      this.filePath := filePath;
      this.hue := hue;
      this.loaded := loaded;
      disposed := false;
    }

    /** `dispose`: the object is marked disposed. */
    method Dispose()
      modifies this`disposed
      ensures disposed
    {
      disposed := true;
    }
  }

  /** The JavaScript truth value of a `loaded` property. */
  predicate Truthy(loaded: Option<bool>) {
    loaded == Some(true)
  }

  // ---------------------------------------------------------------- contexts

  /** One association of a context: a name (usually the file path) and the resource, if any. */
  datatype Entry = Entry(name: string, data: Option<Resource>)

  /** `toDataBundle`: the names of the entries, in order. */
  function Names(es: seq<Entry>): (names: seq<string>)
    ensures |names| == |es|
  {
    if es == [] then [] else [es[0].name] + Names(es[1..])
  }

  /** `fromDataBundle`: one entry per name, whose data is the resource cached under it, if any. */
  function Bundle(names: seq<string>, byPath: map<string, Resource>): (es: seq<Entry>)
    ensures |es| == |names|
  {
    if names == [] then []
    else
      var n := names[0];
      [Entry(n, if n in byPath then Some(byPath[n]) else None)] + Bundle(names[1..], byPath)
  }

  /** Serialising a context restored from a bundle gives the bundle back. */
  lemma {:induction false} BundleRoundTrip(names: seq<string>, byPath: map<string, Resource>)
    ensures Names(Bundle(names, byPath)) == names
  {
    if names != [] {
      BundleRoundTrip(names[1..], byPath);
    }
  }

  /** A restored entry carries the cached resource of its name, or none when nothing is cached under it. */
  lemma {:induction false} BundleData(names: seq<string>, byPath: map<string, Resource>, i: nat)
    requires i < |names|
    ensures Bundle(names, byPath)[i].data == if names[i] in byPath then Some(byPath[names[i]]) else None
  {
    if i > 0 {
      BundleData(names[1..], byPath, i - 1);
    }
  }

  /** The index of the first entry named `name`, or `|es|` when there is none. */
  function IndexOfName(es: seq<Entry>, name: string): (i: nat)
    ensures i <= |es|
    ensures i < |es| ==> es[i].name == name
    ensures forall j :: 0 <= j < i ==> es[j].name != name
  {
    if es == [] then 0
    else if es[0].name == name then 0
    else 1 + IndexOfName(es[1..], name)
  }

  /** `remove`: drops the first entry named `name`. */
  function RemoveNamed(es: seq<Entry>, name: string): seq<Entry> {
    if es == [] then []
    else if es[0].name == name then es[1..]
    else [es[0]] + RemoveNamed(es[1..], name)
  }

  /** `remove` leaves the list alone when no entry has the name, and otherwise cuts out exactly the first one that has it. */
  lemma {:induction false} RemoveNamedFirst(es: seq<Entry>, name: string)
    ensures IndexOfName(es, name) == |es| ==> RemoveNamed(es, name) == es
    ensures IndexOfName(es, name) < |es| ==>
      RemoveNamed(es, name) == es[..IndexOfName(es, name)] + es[IndexOfName(es, name) + 1..]
  {
    if es != [] && es[0].name != name {
      var i := IndexOfName(es[1..], name);
      RemoveNamedFirst(es[1..], name);
      assert IndexOfName(es, name) == i + 1;
      if i < |es| - 1 {
        assert es[..i + 1] == [es[0]] + es[1..][..i];
        assert es[i + 2..] == es[1..][i + 1..];
      } else {
        assert es == [es[0]] + es[1..];
      }
    }
  }

  /** Adding an entry adds its name at the end of the bundle. */
  lemma {:induction false} NamesAppend(es: seq<Entry>, e: Entry)
    ensures Names(es + [e]) == Names(es) + [e.name]
  {
    if es != [] {
      assert (es + [e])[1..] == es[1..] + [e];
      NamesAppend(es[1..], e);
    }
  }

  /** Removing by name removes the first occurrence of that name from the bundle, or nothing. */
  lemma {:induction false} NamesRemove(es: seq<Entry>, name: string)
    ensures Names(RemoveNamed(es, name)) == RemoveFirst(Names(es), name)
  {
    if es != [] {
      NamesRemove(es[1..], name);
      assert Names(es) == [es[0].name] + Names(es[1..]);
    }
  }

  /** A resource context. */
  class Context {
    /** `resources`: the associations, in the order they were made. */
    var resources: seq<Entry>

    constructor ()
      ensures resources == []
    {
      resources := [];
    }

    /** `add`. */
    method Add(name: string, data: Option<Resource>)
      modifies this`resources
      ensures resources == old(resources) + [Entry(name, data)]
    {
      resources := resources + [Entry(name, data)];
    }

    /** `remove`. */
    method Remove(name: string)
      modifies this`resources
      ensures resources == RemoveNamed(old(resources), name)
    {
      resources := RemoveNamed(resources, name);
    }

    /** `toDataBundle`. */
    method ToDataBundle() returns (names: seq<string>)
      ensures |names| == |resources|
      ensures forall i :: 0 <= i < |resources| ==> names[i] == resources[i].name
    {
      names := [];
      var i := 0;
      while i < |resources|
        invariant 0 <= i <= |resources|
        invariant names == Names(resources[..i])
      {
        NamesAppend(resources[..i], resources[i]);
        assert resources[..i + 1] == resources[..i] + [resources[i]];
        names := names + [resources[i].name];
        i := i + 1;
      }
      assert resources[..i] == resources;
      NamesIndex(resources);
    }

    /** `fromDataBundle`: replaces every association by those of the bundle. */
    method FromDataBundle(names: seq<string>, byPath: map<string, Resource>)
      modifies this`resources
      ensures resources == Bundle(names, byPath)
      ensures Names(resources) == names
    {
      resources := Bundle(names, byPath);
      BundleRoundTrip(names, byPath);
    }
  }

  /** Position by position, the bundle holds the entries' names. */
  lemma {:induction false} NamesIndex(es: seq<Entry>)
    ensures |Names(es)| == |es|
    ensures forall i :: 0 <= i < |es| ==> Names(es)[i] == es[i].name
  {
    if es != [] {
      NamesIndex(es[1..]);
    }
  }

  // ---------------------------------------------------------------- eviction

  /** The lists the `dispose*` methods evict from: `resources` and `resourcesByPath`. */
  datatype Caches = Caches(resources: seq<Resource>, byPath: map<string, Resource>)

  /** The caches after some entries were evicted, and the resources disposed on the way. */
  datatype Eviction = Eviction(caches: Caches, disposed: seq<Resource>)

  /** The entry holds a resource of kind `k`. */
  predicate Holds(e: Entry, k: Kind) {
    e.data.Some? && e.data.value.kind == k
  }

  /** The index of the first resource whose `filePath` equals `p` (both may be absent), or `|rs|`. */
  function IndexOfPath(rs: seq<Resource>, p: Option<string>): (i: nat)
    ensures i <= |rs|
    ensures i < |rs| ==> rs[i].filePath == p
    ensures forall j :: 0 <= j < i ==> rs[j].filePath != p
  {
    if rs == [] then 0
    else if rs[0].filePath == p then 0
    else 1 + IndexOfPath(rs[1..], p)
  }

  /**
   * One iteration of the loop of `disposeVideos`, `disposeAudio`,
   * `disposeLive2D` (kinds other than Bitmap) or `disposeBitmaps`: for an
   * entry holding a resource of kind `k`, the resource is disposed, removed
   * from `resources` and its name deleted from `resourcesByPath`. For
   * bitmaps the first resource with the same `filePath` is disposed and
   * removed first, and the name is deleted only when it is not empty.
   */
  function EvictEntry(ev: Eviction, e: Entry, k: Kind): Eviction {
    if !Holds(e, k) then ev
    else if k != Bitmap then EvictResource(ev, e.name, e.data.value)
    else EvictBitmap(ev, e.name, e.data.value)
  }

  /** The loop body of `disposeVideos`, `disposeAudio` and `disposeLive2D` for a resource `d` held under `name`. */
  function EvictResource(ev: Eviction, name: string, d: Resource): Eviction {
    Eviction(Caches(RemoveFirst(ev.caches.resources, d), ev.caches.byPath - {name}), ev.disposed + [d])
  }

  /** The loop body of `disposeBitmaps` for a bitmap `d` held under `name`. */
  function EvictBitmap(ev: Eviction, name: string, d: Resource): Eviction {
    var c := ev.caches;
    var i := IndexOfPath(c.resources, d.filePath);
    var rs := if i < |c.resources| then RemoveFirst(c.resources, c.resources[i]) else c.resources;
    var also := if i < |c.resources| then [c.resources[i]] else [];
    Eviction(Caches(RemoveFirst(rs, d), if name != "" then c.byPath - {name} else c.byPath),
             ev.disposed + [d] + also)
  }

  /** The whole loop: every entry of `es` in turn. */
  function EvictAll(ev: Eviction, es: seq<Entry>, k: Kind): Eviction {
    if es == [] then ev else EvictEntry(EvictAll(ev, es[..|es| - 1], k), es[|es| - 1], k)
  }

  /** The resources of kind `k` the entries hold, in order. */
  function KindData(es: seq<Entry>, k: Kind): seq<Resource> {
    if es == [] then []
    else KindData(es[..|es| - 1], k) + (if Holds(es[|es| - 1], k) then [es[|es| - 1].data.value] else [])
  }

  /** The names whose cache entries the loop deletes: those of the entries holding kind `k` (not empty ones, for bitmaps). */
  function EvictedNames(es: seq<Entry>, k: Kind): set<string> {
    if es == [] then {}
    else
      var e := es[|es| - 1];
      EvictedNames(es[..|es| - 1], k) + (if Holds(e, k) && (k != Bitmap || e.name != "") then {e.name} else {})
  }

  /** The loop deletes exactly the evicted names from `resourcesByPath` and adds nothing. */
  lemma {:induction false} EvictAllByPath(ev: Eviction, es: seq<Entry>, k: Kind)
    ensures EvictAll(ev, es, k).caches.byPath == ev.caches.byPath - EvictedNames(es, k)
  {
    if es != [] {
      EvictAllByPath(ev, es[..|es| - 1], k);
    }
  }

  /**
   * For kinds other than Bitmap, the loop removes from `resources` one
   * occurrence of each resource the entries hold (none when it is not
   * there), and disposes exactly those resources.
   */
  lemma {:induction false} EvictAllResources(ev: Eviction, es: seq<Entry>, k: Kind)
    requires k != Bitmap
    ensures multiset(EvictAll(ev, es, k).caches.resources) == multiset(ev.caches.resources) - multiset(KindData(es, k))
  {
    if es != [] {
      var init, e := es[..|es| - 1], es[|es| - 1];
      EvictAllResources(ev, init, k);
      var before := EvictAll(ev, init, k);
      if Holds(e, k) {
        var d := e.data.value;
        RemoveFirstMultiset(before.caches.resources, d);
        assert multiset(KindData(es, k)) == multiset(KindData(init, k)) + multiset{d};
      } else {
        assert KindData(es, k) == KindData(init, k) + [];
      }
    }
  }

  /** For kinds other than Bitmap, the loop disposes exactly the resources the entries hold, in order. */
  lemma {:induction false} EvictAllDisposed(ev: Eviction, es: seq<Entry>, k: Kind)
    requires k != Bitmap
    ensures EvictAll(ev, es, k).disposed == ev.disposed + KindData(es, k)
  {
    if es != [] {
      var init, e := es[..|es| - 1], es[|es| - 1];
      EvictAllDisposed(ev, init, k);
      if Holds(e, k) {
        assert KindData(es, k) == KindData(init, k) + [e.data.value];
      } else {
        assert KindData(es, k) == KindData(init, k) + [];
      }
    }
  }

  /** Every bitmap a context entry holds is disposed by `disposeBitmaps`. */
  lemma {:induction false} EvictAllDisposesBitmaps(ev: Eviction, es: seq<Entry>)
    ensures forall d :: d in KindData(es, Bitmap) ==> d in EvictAll(ev, es, Bitmap).disposed
    ensures forall d :: d in ev.disposed ==> d in EvictAll(ev, es, Bitmap).disposed
  {
    if es != [] {
      var init := es[..|es| - 1];
      EvictAllDisposesBitmaps(ev, init);
    }
  }

  /** A name is evicted exactly when some entry holding kind `k` carries it (a non-empty one, for bitmaps). */
  lemma {:induction false} EvictedNamesMembers(es: seq<Entry>, k: Kind, n: string)
    ensures n in EvictedNames(es, k) <==>
      exists e :: e in es && Holds(e, k) && (k != Bitmap || e.name != "") && e.name == n
  {
    if es != [] {
      var init, e := es[..|es| - 1], es[|es| - 1];
      EvictedNamesMembers(init, k, n);
      assert es == init + [e];
    }
  }

  /** The resources the entries hold. */
  function HeldData(es: seq<Entry>): set<Resource> {
    set e | e in es && e.data.Some? :: e.data.value
  }

  /** Removing an element keeps only elements that were there. */
  lemma RemoveFirstWithin<T>(s: seq<T>, x: T)
    ensures forall y :: y in RemoveFirst(s, x) ==> y in s
  {
    RemoveFirstMultiset(s, x);
  }

  /**
   * The loop only removes from `resources`, and disposes nothing but
   * resources that were listed there or held by the entries.
   */
  lemma {:induction false} EvictAllWithin(ev: Eviction, es: seq<Entry>, k: Kind)
    ensures forall r :: r in EvictAll(ev, es, k).caches.resources ==> r in ev.caches.resources
    ensures forall r :: r in EvictAll(ev, es, k).disposed ==>
      r in ev.disposed || r in ev.caches.resources || r in HeldData(es)
  {
    if es != [] {
      var init, e := es[..|es| - 1], es[|es| - 1];
      EvictAllWithin(ev, init, k);
      var before := EvictAll(ev, init, k);
      assert HeldData(init) <= HeldData(es);
      if Holds(e, k) {
        var d := e.data.value;
        assert d in HeldData(es);
        var rs := before.caches.resources;
        if k != Bitmap {
          RemoveFirstWithin(rs, d);
        } else {
          var i := IndexOfPath(rs, d.filePath);
          if i < |rs| {
            RemoveFirstWithin(rs, rs[i]);
            RemoveFirstWithin(RemoveFirst(rs, rs[i]), d);
          } else {
            RemoveFirstWithin(rs, d);
          }
        }
      }
    }
  }

  /** The loop, with the cache lists taken out of the manager. */
  method EvictKind(ev0: Eviction, es: seq<Entry>, k: Kind) returns (ev: Eviction)
    ensures ev == EvictAll(ev0, es, k)
  {
    ev := ev0;
    var j := 0;
    while j < |es|
      invariant 0 <= j <= |es|
      invariant ev == EvictAll(ev0, es[..j], k)
    {
      assert es[..j + 1][..j] == es[..j];
      ev := EvictEntry(ev, es[j], k);
      j := j + 1;
    }
    assert es[..j] == es;
  }

  /** `dispose` on each resource of `rs`. */
  method DisposeEach(rs: seq<Resource>)
    modifies set r | r in rs
    ensures forall r :: r in rs ==> r.disposed
  {
    var j := 0;
    while j < |rs|
      invariant 0 <= j <= |rs|
      invariant forall i :: 0 <= i < j ==> rs[i].disposed
    {
      rs[j].Dispose();
      j := j + 1;
    }
  }

  // ---------------------------------------------------------------- the manager

  /** A path naming a folder, which the `get*` methods for videos and bitmaps refuse. */
  predicate IsFolder(path: string) {
    |path| > 0 && path[|path| - 1] == '/'
  }

  /** `hue || 0`: an absent hue counts as 0. */
  function HueOrZero(hue: Option<int>): (h: int)
    ensures hue.None? ==> h == 0
    ensures hue.Some? ==> h == hue.value
  {
    if hue.None? then 0 else hue.value
  }

  /** The manager. */
  class Manager {
    /** `context_`: the context set by the program, or null. */
    var contextOverride: Context?
    var systemContext: Context
    var customBitmapsByKey: map<string, Resource>
    var resourcesByPath: map<string, Resource>
    /** `resourcesByPathHue`, keyed by file path and hue instead of the string `path@hue`. */
    var resourcesByPathHue: map<(string, int), Resource>
    var resources: seq<Resource>
    var resourcesLoaded: bool
    /** How often the "loaded" event has been emitted. */
    var loadedEvents: nat

    constructor ()
      ensures contextOverride == null && fresh(systemContext) && systemContext.resources == []
      ensures customBitmapsByKey == map[] && resourcesByPath == map[] && resourcesByPathHue == map[]
      ensures resources == [] && resourcesLoaded && loadedEvents == 0
    {
      contextOverride := null;
      systemContext := new Context();
      customBitmapsByKey := map[];
      resourcesByPath := map[];
      resourcesByPathHue := map[];
      resources := [];
      resourcesLoaded := true;
      loadedEvents := 0;
    }

    /** The `context` getter: the context set by the program, else the system context. */
    function Current(): (c: Context)
      reads this
    {
      if contextOverride != null then contextOverride else systemContext
    }

    /** The `context` setter. */
    method SetContext(v: Context?)
      modifies this`contextOverride
      ensures contextOverride == v
      ensures v != null ==> Current() == v
      ensures v == null ==> Current() == systemContext
    {
      contextOverride := v;
    }

    /** `createContext`: a new, empty context, not yet current. */
    method CreateContext() returns (c: Context)
      ensures fresh(c) && c.resources == []
    {
      c := new Context();
    }

    /**
     * The cache lookup shared by `getVideo`, `getLive2DModel` (with the
     * disposed check) and `getAudioBuffer`, `getAudioStream` (without it): a
     * cached resource is returned as it is; on a miss a new resource of kind
     * `k` is created, cached under `path`, appended to `resources` and to the
     * current context, and the manager is no longer fully loaded.
     */
    method Obtain(path: string, k: Kind, checkDisposed: bool) returns (r: Resource)
      modifies this`resourcesByPath, this`resources, this`resourcesLoaded, Current()`resources
      ensures old(path in resourcesByPath && !(checkDisposed && resourcesByPath[path].disposed)) ==>
        (r == old(resourcesByPath[path]) && resourcesByPath == old(resourcesByPath)
         && resources == old(resources) && resourcesLoaded == old(resourcesLoaded)
         && Current().resources == old(Current().resources))
      ensures !old(path in resourcesByPath && !(checkDisposed && resourcesByPath[path].disposed)) ==>
        (fresh(r) && r.kind == k && !r.disposed
         && resourcesByPath == old(resourcesByPath)[path := r] && resources == old(resources) + [r]
         && !resourcesLoaded && Current().resources == old(Current().resources) + [Entry(path, Some(r))])
      ensures path in resourcesByPath && resourcesByPath[path] == r
    {
      if path in resourcesByPath && !(checkDisposed && resourcesByPath[path].disposed) {
        r := resourcesByPath[path];
        return;
      }
      r := new Resource(k, None, None, Some(false));
      resourcesByPath := resourcesByPath[path := r];
      resources := resources + [r];
      resourcesLoaded := false;
      Current().Add(path, Some(r));
    }

    /** `getVideo`: null for a folder path, else the cached video (a disposed one is replaced). */
    method GetVideo(path: string) returns (r: Resource?)
      modifies this`resourcesByPath, this`resources, this`resourcesLoaded, Current()`resources
      ensures IsFolder(path) ==> r == null && unchanged(this) && unchanged(Current())
      ensures !IsFolder(path) ==> r != null && path in resourcesByPath && resourcesByPath[path] == r && !r.disposed
      ensures !IsFolder(path) && old(path in resourcesByPath && !resourcesByPath[path].disposed) ==>
        r == old(resourcesByPath[path]) && resources == old(resources) && resourcesByPath == old(resourcesByPath)
        && resourcesLoaded == old(resourcesLoaded) && Current().resources == old(Current().resources)
      ensures !IsFolder(path) && !old(path in resourcesByPath && !resourcesByPath[path].disposed) ==>
        fresh(r) && r.kind == Video && resources == old(resources) + [r] && !resourcesLoaded
        && resourcesByPath == old(resourcesByPath)[path := r]
        && Current().resources == old(Current().resources) + [Entry(path, Some(r))]
    {
      if IsFolder(path) {
        return null;
      }
      r := Obtain(path, Video, true);
    }

    /** Two requests for the same video path in a row answer the same object. */
    method SameVideoTwice(path: string) returns (a: Resource?, b: Resource?)
      modifies this`resourcesByPath, this`resources, this`resourcesLoaded, Current()`resources
      ensures a == b
    {
      a := GetVideo(path);
      b := GetVideo(path);
    }

    /** `getLive2DModel`: the cached model; a missing or disposed one is replaced. */
    method GetLive2DModel(path: string) returns (r: Resource)
      modifies this`resourcesByPath, this`resources, this`resourcesLoaded, Current()`resources
      ensures path in resourcesByPath && resourcesByPath[path] == r && !r.disposed
      ensures old(path in resourcesByPath && !resourcesByPath[path].disposed) ==>
        r == old(resourcesByPath[path]) && resources == old(resources) && resourcesByPath == old(resourcesByPath)
        && resourcesLoaded == old(resourcesLoaded) && Current().resources == old(Current().resources)
      ensures !old(path in resourcesByPath && !resourcesByPath[path].disposed) ==>
        fresh(r) && r.kind == Live2DModel && resources == old(resources) + [r] && !resourcesLoaded
        && resourcesByPath == old(resourcesByPath)[path := r]
        && Current().resources == old(Current().resources) + [Entry(path, Some(r))]
    {
      r := Obtain(path, Live2DModel, true);
    }

    /**
     * `getAudioBuffer` (and `getAudioStream`, whose body is the same): the
     * cached resource even when it is disposed; only a miss creates one.
     */
    method GetAudioBuffer(path: string) returns (r: Resource)
      modifies this`resourcesByPath, this`resources, this`resourcesLoaded, Current()`resources
      ensures path in resourcesByPath && resourcesByPath[path] == r
      ensures old(path in resourcesByPath) ==>
        r == old(resourcesByPath[path]) && resources == old(resources) && resourcesByPath == old(resourcesByPath)
        && resourcesLoaded == old(resourcesLoaded) && Current().resources == old(Current().resources)
      ensures old(path !in resourcesByPath) ==>
        fresh(r) && r.kind == AudioBuffer && resources == old(resources) + [r] && !resourcesLoaded
        && resourcesByPath == old(resourcesByPath)[path := r]
        && Current().resources == old(Current().resources) + [Entry(path, Some(r))]
    {
      r := Obtain(path, AudioBuffer, false);
    }

    /** The resource `getBitmap` starts from: the path cache first, then the custom bitmaps. */
    function Cached(path: string): (r: Option<Resource>)
      reads this
      ensures r.None? <==> path !in resourcesByPath && path !in customBitmapsByKey
      ensures path in resourcesByPath ==> r == Some(resourcesByPath[path])
      ensures path !in resourcesByPath && path in customBitmapsByKey ==> r == Some(customBitmapsByKey[path])
    {
      if path in resourcesByPath then Some(resourcesByPath[path])
      else if path in customBitmapsByKey then Some(customBitmapsByKey[path])
      else None
    }

    /**
     * `getBitmap`: null for a folder path. Otherwise, with `h` the hue (0
     * when absent):
     * - nothing cached: a new bitmap with hue `h` is cached under the path and
     *   appended to `resources` and to the current context;
     * - the cached bitmap is not loaded and has another hue: a new bitmap with
     *   hue `h` is returned and appended to `resources` only;
     * - otherwise, for `h > 0`, the recoloured copy cached for (path, h) is
     *   returned, made now from a loaded bitmap when there is none yet, or the
     *   cached bitmap when it cannot be made;
     * - otherwise the cached bitmap.
     */
    method GetBitmap(path: string, hue: Option<int>) returns (r: Resource?)
      modifies this`resourcesByPath, this`resources, this`resourcesLoaded, this`resourcesByPathHue, Current()`resources
      ensures IsFolder(path) ==> r == null && unchanged(this) && unchanged(Current())
      ensures !IsFolder(path) && old(Cached(path)).None? ==>
        fresh(r) && r.kind == Bitmap && r.hue == Some(HueOrZero(hue)) && r.filePath == Some(path)
        && resourcesByPath == old(resourcesByPath)[path := r] && resources == old(resources) + [r]
        && !resourcesLoaded && resourcesByPathHue == old(resourcesByPathHue)
        && Current().resources == old(Current().resources) + [Entry(path, Some(r))]
      ensures !IsFolder(path) && old(Cached(path)).Some? ==>
        var c := old(Cached(path).value);
        var key := (path, HueOrZero(hue));
        && Current().resources == old(Current().resources) && resourcesByPath == old(resourcesByPath)
        && (!old(Truthy(c.loaded)) && c.hue != Some(HueOrZero(hue)) ==>
              fresh(r) && r.kind == Bitmap && r.hue == Some(HueOrZero(hue)) && r.filePath == Some(path)
              && resources == old(resources) + [r] && !resourcesLoaded && resourcesByPathHue == old(resourcesByPathHue))
        && (!(!old(Truthy(c.loaded)) && c.hue != Some(HueOrZero(hue))) ==>
              resources == old(resources) && resourcesLoaded == old(resourcesLoaded)
              && (HueOrZero(hue) <= 0 ==> r == c && resourcesByPathHue == old(resourcesByPathHue))
              && (HueOrZero(hue) > 0 && key in old(resourcesByPathHue) ==>
                    r == old(resourcesByPathHue[key]) && resourcesByPathHue == old(resourcesByPathHue))
              && (HueOrZero(hue) > 0 && key !in old(resourcesByPathHue) && old(Truthy(c.loaded)) ==>
                    fresh(r) && r.kind == Bitmap && resourcesByPathHue == old(resourcesByPathHue)[key := r])
              && (HueOrZero(hue) > 0 && key !in old(resourcesByPathHue) && !old(Truthy(c.loaded)) ==>
                    r == c && resourcesByPathHue == old(resourcesByPathHue)))
    {
      if IsFolder(path) {
        return null;
      }
      var h := HueOrZero(hue);
      var cached := Cached(path);
      if cached.None? {
        r := new Resource(Bitmap, Some(path), Some(h), Some(false));
        resourcesByPath := resourcesByPath[path := r];
        resources := resources + [r];
        resourcesLoaded := false;
        Current().Add(path, Some(r));
      } else if !Truthy(cached.value.loaded) && cached.value.hue != Some(h) {
        r := new Resource(Bitmap, Some(path), Some(h), Some(false));
        resources := resources + [r];
        resourcesLoaded := false;
      } else if h > 0 {
        r := cached.value;
        if (path, h) in resourcesByPathHue {
          r := resourcesByPathHue[(path, h)];
        } else if Truthy(cached.value.loaded) {
          // a copy of the loaded image, recoloured to `h`
          r := new Resource(Bitmap, None, None, Some(true));
          resourcesByPathHue := resourcesByPathHue[(path, h) := r];
        }
      } else {
        r := cached.value;
      }
    }

    /** `getImage`: the cached image, or a new one appended to `resources` (not to the context). */
    method GetImage(path: string) returns (r: Resource)
      modifies this`resourcesByPath, this`resources, this`resourcesLoaded
      ensures path in resourcesByPath && resourcesByPath[path] == r
      ensures old(path in resourcesByPath) ==>
        (r == old(resourcesByPath[path]) && resources == old(resources)
         && resourcesByPath == old(resourcesByPath) && resourcesLoaded == old(resourcesLoaded))
      ensures old(path !in resourcesByPath) ==>
        (fresh(r) && r.kind == Bitmap && resources == old(resources) + [r]
         && resourcesByPath == old(resourcesByPath)[path := r] && !resourcesLoaded)
    {
      if path in resourcesByPath {
        r := resourcesByPath[path];
      } else {
        r := new Resource(Bitmap, None, None, Some(false));
        resourcesByPath := resourcesByPath[path := r];
        resources := resources + [r];
        resourcesLoaded := false;
      }
    }

    /** `getFont`: always a new font, appended to `resources`. */
    method GetFont() returns (r: Resource)
      modifies this`resources, this`resourcesLoaded
      ensures fresh(r) && r.kind == Font && resources == old(resources) + [r] && !resourcesLoaded
    {
      r := new Resource(Font, None, None, Some(false));
      resources := resources + [r];
      resourcesLoaded := false;
    }

    /** `loadFonts`: registers the unloaded font-folder placeholder; the font loading itself is outside the model. */
    method LoadFonts() returns (r: Resource)
      modifies this`resources, this`resourcesByPath
      ensures fresh(r) && r.loaded == Some(false) && resources == old(resources) + [r]
      ensures resourcesByPath == old(resourcesByPath)["Graphics/Fonts" := r]
    {
      r := new Resource(Other, None, None, Some(false));
      resources := resources + [r];
      resourcesByPath := resourcesByPath["Graphics/Fonts" := r];
    }

    /** `getCustomBitmap`: the bitmap set for `key`, or nothing. */
    method GetCustomBitmap(key: string) returns (r: Option<Resource>)
      ensures r.Some? <==> key in customBitmapsByKey
      ensures r.Some? ==> r.value == customBitmapsByKey[key]
    {
      r := if key in customBitmapsByKey then Some(customBitmapsByKey[key]) else None;
    }

    /**
     * `setCustomBitmap`: stores the bitmap under `key`; a bitmap without a
     * `loaded` property is also appended to `resources` and makes the
     * manager not fully loaded.
     */
    method SetCustomBitmap(key: string, bitmap: Resource)
      modifies this`customBitmapsByKey, this`resources, this`resourcesLoaded
      ensures customBitmapsByKey == old(customBitmapsByKey)[key := bitmap]
      ensures bitmap.loaded.None? ==> resources == old(resources) + [bitmap] && !resourcesLoaded
      ensures bitmap.loaded.Some? ==> resources == old(resources) && resourcesLoaded == old(resourcesLoaded)
    {
      customBitmapsByKey := customBitmapsByKey[key := bitmap];
      if bitmap.loaded.None? {
        resources := resources + [bitmap];
        resourcesLoaded := false;
      }
    }

    /** `addCustomBitmap`: associates the bitmap with the current context under the empty name. */
    method AddCustomBitmap(bitmap: Resource)
      modifies Current()`resources
      ensures Current().resources == old(Current().resources) + [Entry("", Some(bitmap))]
    {
      Current().Add("", Some(bitmap));
    }

    /**
     * The shared body of the `dispose*` methods: runs the eviction loop for
     * kind `k` over the current context, then disposes the resources it
     * picked.
     */
    method DisposeKind(k: Kind)
      modifies this`resources, this`resourcesByPath
      modifies set r | r in EvictAll(Eviction(Caches(resources, resourcesByPath), []), Current().resources, k).disposed
      ensures var ev := old(EvictAll(Eviction(Caches(resources, resourcesByPath), []), Current().resources, k));
        && resources == ev.caches.resources && resourcesByPath == ev.caches.byPath
        && forall r :: r in ev.disposed ==> r.disposed
      ensures forall r :: r in resources ==> r in old(resources)
      ensures forall r :: r in old(EvictAll(Eviction(Caches(resources, resourcesByPath), []), Current().resources, k).disposed) ==>
        r in old(resources) || r in old(HeldData(Current().resources))
    {
      EvictAllWithin(Eviction(Caches(resources, resourcesByPath), []), Current().resources, k);
      var ev := EvictKind(Eviction(Caches(resources, resourcesByPath), []), Current().resources, k);
      DisposeEach(ev.disposed);
      resources, resourcesByPath := ev.caches.resources, ev.caches.byPath;
    }

    /** `disposeVideos`. */
    method DisposeVideos()
      modifies this`resources, this`resourcesByPath
      modifies set r | r in EvictAll(Eviction(Caches(resources, resourcesByPath), []), Current().resources, Video).disposed
      ensures var ev := old(EvictAll(Eviction(Caches(resources, resourcesByPath), []), Current().resources, Video));
        resources == ev.caches.resources && resourcesByPath == ev.caches.byPath
      ensures forall r :: r in resources ==> r in old(resources)
      ensures resourcesByPath == old(resourcesByPath) - old(EvictedNames(Current().resources, Video))
      ensures multiset(resources) == old(multiset(resources) - multiset(KindData(Current().resources, Video)))
      ensures forall r :: r in old(KindData(Current().resources, Video)) ==> r.disposed
    {
      ghost var es := Current().resources;
      ghost var ev0 := Eviction(Caches(resources, resourcesByPath), []);
      EvictAllByPath(ev0, es, Video);
      EvictAllResources(ev0, es, Video);
      EvictAllDisposed(ev0, es, Video);
      DisposeKind(Video);
    }

    /** `disposeLive2D`. */
    method DisposeLive2D()
      modifies this`resources, this`resourcesByPath
      modifies set r | r in EvictAll(Eviction(Caches(resources, resourcesByPath), []), Current().resources, Live2DModel).disposed
      ensures var ev := old(EvictAll(Eviction(Caches(resources, resourcesByPath), []), Current().resources, Live2DModel));
        resources == ev.caches.resources && resourcesByPath == ev.caches.byPath
      ensures forall r :: r in resources ==> r in old(resources)
      ensures resourcesByPath == old(resourcesByPath) - old(EvictedNames(Current().resources, Live2DModel))
      ensures multiset(resources) == old(multiset(resources) - multiset(KindData(Current().resources, Live2DModel)))
      ensures forall r :: r in old(KindData(Current().resources, Live2DModel)) ==> r.disposed
    {
      ghost var es := Current().resources;
      ghost var ev0 := Eviction(Caches(resources, resourcesByPath), []);
      EvictAllByPath(ev0, es, Live2DModel);
      EvictAllResources(ev0, es, Live2DModel);
      EvictAllDisposed(ev0, es, Live2DModel);
      DisposeKind(Live2DModel);
    }

    /** `disposeAudio` (the audio manager's own cleanup is outside the model). */
    method DisposeAudio()
      modifies this`resources, this`resourcesByPath
      modifies set r | r in EvictAll(Eviction(Caches(resources, resourcesByPath), []), Current().resources, AudioBuffer).disposed
      ensures var ev := old(EvictAll(Eviction(Caches(resources, resourcesByPath), []), Current().resources, AudioBuffer));
        resources == ev.caches.resources && resourcesByPath == ev.caches.byPath
      ensures forall r :: r in resources ==> r in old(resources)
      ensures resourcesByPath == old(resourcesByPath) - old(EvictedNames(Current().resources, AudioBuffer))
      ensures multiset(resources) == old(multiset(resources) - multiset(KindData(Current().resources, AudioBuffer)))
      ensures forall r :: r in old(KindData(Current().resources, AudioBuffer)) ==> r.disposed
    {
      ghost var es := Current().resources;
      ghost var ev0 := Eviction(Caches(resources, resourcesByPath), []);
      EvictAllByPath(ev0, es, AudioBuffer);
      EvictAllResources(ev0, es, AudioBuffer);
      EvictAllDisposed(ev0, es, AudioBuffer);
      DisposeKind(AudioBuffer);
    }

    /** `disposeBitmaps`. */
    method DisposeBitmaps()
      modifies this`resources, this`resourcesByPath
      modifies set r | r in EvictAll(Eviction(Caches(resources, resourcesByPath), []), Current().resources, Bitmap).disposed
      ensures var ev := old(EvictAll(Eviction(Caches(resources, resourcesByPath), []), Current().resources, Bitmap));
        resources == ev.caches.resources && resourcesByPath == ev.caches.byPath
      ensures forall r :: r in resources ==> r in old(resources)
      ensures resourcesByPath == old(resourcesByPath) - old(EvictedNames(Current().resources, Bitmap))
      ensures forall r :: r in old(KindData(Current().resources, Bitmap)) ==> r.disposed
    {
      ghost var es := Current().resources;
      ghost var ev0 := Eviction(Caches(resources, resourcesByPath), []);
      EvictAllByPath(ev0, es, Bitmap);
      EvictAllDisposesBitmaps(ev0, es);
      DisposeKind(Bitmap);
    }

    /**
     * `dispose`: disposes the bitmaps, videos, audio buffers and Live2D
     * models of the current context (the bodies of `disposeBitmaps`,
     * `disposeVideos`, `disposeAudio` and `disposeLive2D`, in that order),
     * then makes the system context current.
     */
    method Dispose()
      modifies this`resources, this`resourcesByPath, this`contextOverride
      modifies resources, HeldData(Current().resources)
      ensures contextOverride == systemContext && Current() == systemContext
      ensures forall r :: r in resources ==> r in old(resources)
    {
      ghost var es := Current().resources;
      EvictAllWithin(Eviction(Caches(resources, resourcesByPath), []), es, Bitmap);
      DisposeKind(Bitmap);
      EvictAllWithin(Eviction(Caches(resources, resourcesByPath), []), es, Video);
      DisposeKind(Video);
      EvictAllWithin(Eviction(Caches(resources, resourcesByPath), []), es, AudioBuffer);
      DisposeKind(AudioBuffer);
      EvictAllWithin(Eviction(Caches(resources, resourcesByPath), []), es, Live2DModel);
      DisposeKind(Live2DModel);
      contextOverride := systemContext;
    }

    /**
     * `update`: when not everything was loaded, scans `resources` in order
     * and stops at the first one that is not loaded; the manager is loaded
     * again, and emits "loaded", exactly when there is none.
     */
    method Update()
      modifies this`resourcesLoaded, this`loadedEvents
      ensures old(resourcesLoaded) ==> resourcesLoaded && loadedEvents == old(loadedEvents)
      ensures !old(resourcesLoaded) ==>
        (resourcesLoaded <==> forall i :: 0 <= i < |resources| ==> Truthy(resources[i].loaded))
      ensures !old(resourcesLoaded) ==> loadedEvents == old(loadedEvents) + (if resourcesLoaded then 1 else 0)
    {
      if resourcesLoaded {
        return;
      }
      resourcesLoaded := true;
      var i := 0;
      while i < |resources|
        invariant 0 <= i <= |resources|
        invariant resourcesLoaded
        invariant forall j :: 0 <= j < i ==> Truthy(resources[j].loaded)
      {
        if !Truthy(resources[i].loaded) {
          resourcesLoaded := false;
          break;
        }
        i := i + 1;
      }
      if resourcesLoaded {
        loadedEvents := loadedEvents + 1;
      }
    }
  }
}
