/**
 * ui.UIManager and ui.Formula: the style registry `setupStyles` builds from
 * the registered style descriptors, `addControlStyles`, which attaches
 * styles to a control by name, and the change detectors of UI formulas.
 */
module UI {
  import opened Common
  import opened Styles

  /*** String.prototype.split with a one-character separator ***/

  /** `s.split(sep)`: the pieces between separators; the empty string gives one empty piece. */
  function Split(s: string, sep: char): (pieces: seq<string>)
    ensures |pieces| >= 1
  {
    if s == [] then [[]]
    else
      var rest := Split(s[1..], sep);
      if s[0] == sep then [[]] + rest
      else [[s[0]] + rest[0]] + rest[1..]
  }

  /** `pieces.join(sep)`. */
  function Join(pieces: seq<string>, sep: char): string {
    if pieces == [] then []
    else if |pieces| == 1 then pieces[0]
    else pieces[0] + [sep] + Join(pieces[1..], sep)
  }

  /** Joining the pieces of a split gives the string back, and no piece holds the separator. */
  lemma {:induction false} SplitJoin(s: string, sep: char)
    ensures Join(Split(s, sep), sep) == s
    ensures forall i :: 0 <= i < |Split(s, sep)| ==> sep !in Split(s, sep)[i]
  {
    if s != [] {
      SplitJoin(s[1..], sep);
      var rest := Split(s[1..], sep);
      var pieces := Split(s, sep);
      if s[0] == sep {
        assert pieces[1..] == rest;
      } else {
        assert pieces[1..] == rest[1..];
        if |rest| > 1 {
          assert Join(rest, sep) == rest[0] + [sep] + Join(rest[1..], sep);
        }
        forall i | 0 <= i < |pieces| ensures sep !in pieces[i] {
          if i > 0 {
            assert pieces[i] == rest[i];
          }
        }
      }
    }
  }

  /** A string without the separator splits into itself. */
  lemma {:induction false} SplitWithout(s: string, sep: char)
    requires sep !in s
    ensures Split(s, sep) == [s]
  {
    if s != [] {
      SplitWithout(s[1..], sep);
      assert [s[0]] + s[1..] == s;
    }
  }

  /** A separator after a piece without one ends that piece. */
  lemma {:induction false} SplitAfter(a: string, sep: char, x: string)
    requires sep !in a
    ensures Split(a + [sep] + x, sep) == [a] + Split(x, sep)
  {
    if a == [] {
      assert [] + [sep] + x == [sep] + x;
      assert ([sep] + x)[1..] == x;
    } else {
      assert (a + [sep] + x)[1..] == a[1..] + [sep] + x;
      SplitAfter(a[1..], sep, x);
      assert [a[0]] + a[1..] == a;
    }
  }

  /** Splitting pieces joined with a separator none of them holds gives the pieces back. */
  lemma {:induction false} JoinSplit(pieces: seq<string>, sep: char)
    requires |pieces| >= 1
    requires forall i :: 0 <= i < |pieces| ==> sep !in pieces[i]
    ensures Split(Join(pieces, sep), sep) == pieces
  {
    if |pieces| == 1 {
      SplitWithout(pieces[0], sep);
    } else {
      JoinSplit(pieces[1..], sep);
      SplitAfter(pieces[0], sep, Join(pieces[1..], sep));
      assert [pieces[0]] + pieces[1..] == pieces;
    }
  }

  /*** Style keys: `name[:selector][ child]` ***/

  /** The selector part of a key's first word: `subs[0].split(":")`. */
  function NameParts(key: string): seq<string> {
    Split(Split(key, ' ')[0], ':')
  }

  /** The style name a key registers under: the first word up to its first colon. */
  function KeyName(key: string): string {
    NameParts(key)[0]
  }

  /** The selector number of a key: a known selector name after the colon, else 0 (normal). */
  function KeySelector(key: string): (n: int)
    ensures 0 <= n <= 4
  {
    var parts := NameParts(key);
    if |parts| > 1 && Selector(parts[1]).Some? && Selector(parts[1]).value != 0 then Selector(parts[1]).value else 0
  }

  /** The child name of a key with a second word: the style also applies to controls of that name. */
  function Child(key: string): Option<string> {
    var subs := Split(key, ' ');
    if |subs| > 1 then Some(subs[1]) else None
  }

  /** The key whose style a child key's style targets: `k.split(":")[0]`. */
  function ParentKey(key: string): string {
    Split(key, ':')[0]
  }

  /** A key built from a name, a selector and a child (none holding a blank or a colon) parses back into them. */
  lemma ParseKey(name: string, selector: string, child: string)
    requires ' ' !in name && ':' !in name && ' ' !in selector && ':' !in selector && ' ' !in child
    ensures var key := name + [':'] + selector + [' '] + child;
      KeyName(key) == name && KeySelector(key) == Selector(selector).GetOr(0) &&
      Child(key) == Some(child) && ParentKey(key) == name
  {
    var head := name + [':'] + selector;
    var key := head + [' '] + child;
    assert ' ' !in head;
    SplitAfter(head, ' ', child);
    SplitWithout(child, ' ');
    SplitAfter(name, ':', selector);
    SplitWithout(selector, ':');
    assert key == name + [':'] + (selector + [' '] + child);
    SplitAfter(name, ':', selector + [' '] + child);
    assert Split(head, ':') == [name, selector];
    assert Split(key, ' ') == [head, child];
  }

  /** A plain key (one word, no colon) names itself, has the normal selector and no child. */
  lemma ParsePlainKey(key: string)
    requires ' ' !in key && ':' !in key
    ensures KeyName(key) == key && KeySelector(key) == 0 && Child(key) == None && ParentKey(key) == key
  {
    SplitWithout(key, ' ');
    SplitWithout(key, ':');
  }

  /** The target `setupStyles` gives the style of `key`: -1 for a key without child, else its parent key's id. */
  function SetupTarget(ids: map<string, int>, key: string): Option<int> {
    if Child(key).None? then Some(-1)
    else if ParentKey(key) in ids then Some(ids[ParentKey(key)])
    else None
  }

  /**
   * The child key `a b` has no colon, so `k.split(":")[0]` is the whole key:
   * once registered, its style targets itself rather than the style of `a`.
   */
  lemma ChildKeyTargetsItself(name: string, child: string, ids: map<string, int>)
    requires ' ' !in name && ':' !in name && ':' !in child && ' ' !in child
    requires name + [' '] + child in ids
    ensures var key := name + [' '] + child;
      Child(key) == Some(child) && ParentKey(key) == key && SetupTarget(ids, key) == Some(ids[key])
  {
    var key := name + [' '] + child;
    SplitAfter(name, ' ', child);
    SplitWithout(child, ' ');
    assert ':' !in key;
    SplitWithout(key, ':');
  }

  /*** The style registry ***/

  /** A registered style descriptor under its key (`UIManager.styles` before `setupStyles`). */
  datatype StyleEntry = StyleEntry(key: string, descriptor: Option<Descriptor>)

  /**
   * The tables `setupStyles` fills: `stylesById`, `stylesByName` (ids into
   * `byId`, so that a change of a style's target is seen through every
   * table, as a change of a shared JavaScript object is) and `styles` after
   * setup (again as ids).
   */
  datatype Registry = Registry(byId: seq<Style>, byName: map<string, seq<int>>, ids: map<string, int>)

  /** The registry of a freshly constructed manager. */
  const EMPTY: Registry := Registry([], map[], map[])

  /** The ids listed under a name, none for a name not in the table. */
  function Listed(byName: map<string, seq<int>>, name: string): seq<int> {
    if name in byName then byName[name] else []
  }

  /** Every id the key table maps to is below `n`. */
  predicate IdsInRange(ids: map<string, int>, n: int) {
    forall key :: key in ids ==> 0 <= ids[key] < n
  }

  /** Every id the name table lists is below `n`. */
  predicate NamesInRange(byName: map<string, seq<int>>, n: int) {
    forall name, i :: name in byName && 0 <= i < |byName[name]| ==> 0 <= byName[name][i] < n
  }

  /** Every id in the tables names a style of `byId`. */
  predicate Valid(r: Registry) {
    IdsInRange(r.ids, |r.byId|) && NamesInRange(r.byName, |r.byId|)
  }

  /** Every key of `es` is in the key table. */
  predicate KeysIn(es: seq<StyleEntry>, ids: map<string, int>) {
    forall i :: 0 <= i < |es| ==> es[i].key in ids
  }

  /** `stylesById[id] = style`: overwrites an existing entry or extends the array by one. */
  function Put(a: seq<Style>, id: nat, s: Style): (r: seq<Style>)
    requires id <= |a|
    ensures |r| == if id < |a| then |a| else id + 1
  {
    if id < |a| then a[id := s] else a + [s]
  }

  /** One pass of the first loop of `setupStyles`: the style of one key, registered under its name. */
  function Register(r: Registry, e: StyleEntry, id: nat): Registry
    requires id <= |r.byId|
  {
    var name := KeyName(e.key);
    Registry(
      Put(r.byId, id, FromDescriptor(e.descriptor, id, KeySelector(e.key))),
      r.byName[name := Listed(r.byName, name) + [id]],
      r.ids[e.key := id])
  }

  /** The first loop of `setupStyles` over the keys in enumeration order, ids counting from 0. */
  function RegisterAll(r: Registry, es: seq<StyleEntry>): (out: Registry)
    ensures |out.byId| == if |es| > |r.byId| then |es| else |r.byId|
  {
    if es == [] then r
    else Register(RegisterAll(r, es[..|es| - 1]), es[|es| - 1], |es| - 1)
  }

  /** Each pass of the first loop registers one more key. */
  lemma RegisterStep(r: Registry, es: seq<StyleEntry>, i: nat)
    requires i < |es|
    ensures RegisterAll(r, es[..i + 1]) == Register(RegisterAll(r, es[..i]), es[i], i)
  {
    assert es[..i + 1][..i] == es[..i];
  }

  /** After the first loop every key is registered. */
  lemma {:induction false} RegisterAllKeys(r: Registry, es: seq<StyleEntry>)
    ensures KeysIn(es, RegisterAll(r, es).ids)
  {
    if es != [] {
      var n := |es| - 1;
      RegisterAllKeys(r, es[..n]);
      assert forall i :: 0 <= i < n ==> es[i] == es[..n][i];
    }
  }

  /** The first loop keeps every id in the tables naming a style. */
  lemma {:induction false} RegisterAllValid(r: Registry, es: seq<StyleEntry>)
    requires Valid(r)
    ensures Valid(RegisterAll(r, es))
  {
    if es != [] {
      RegisterAllValid(r, es[..|es| - 1]);
    }
  }

  /** The ids of the keys in `es` whose name is `name`, in order. */
  function IdsNamed(es: seq<StyleEntry>, name: string): seq<int> {
    if es == [] then []
    else IdsNamed(es[..|es| - 1], name) + (if KeyName(es[|es| - 1].key) == name then [|es| - 1] else [])
  }

  /** The styles the ids of `ids` name. */
  function Resolve(byId: seq<Style>, ids: seq<int>): (styles: seq<Style>)
    requires forall i :: 0 <= i < |ids| ==> 0 <= ids[i] < |byId|
    ensures |styles| == |ids|
    ensures forall i :: 0 <= i < |ids| ==> styles[i] == byId[ids[i]]
  {
    if ids == [] then [] else Resolve(byId, ids[..|ids| - 1]) + [byId[ids[|ids| - 1]]]
  }

  /** The target a child key's style gets: the id of the style of its parent key, `undefined` without one. */
  function TargetOf(r: Registry, key: string): Option<int>
    requires IdsInRange(r.ids, |r.byId|)
  {
    var parent := ParentKey(key);
    if parent in r.ids then Some(r.byId[r.ids[parent]].id) else None
  }

  /**
   * One pass of the second loop of `setupStyles`: a child key's style is
   * pushed onto the list of its child name and targets its parent key's
   * style. None is the TypeError of pushing onto a name no key registered.
   */
  function Link(r: Registry, e: StyleEntry): Option<Registry>
    requires IdsInRange(r.ids, |r.byId|) && e.key in r.ids
  {
    match Child(e.key)
    case None => Some(r)
    case Some(child) =>
      if child !in r.byName then None
      else
        var id := r.ids[e.key];
        Some(Registry(
          r.byId[id := r.byId[id].(target := TargetOf(r, e.key))],
          r.byName[child := r.byName[child] + [id]],
          r.ids))
  }

  /** The tables after a loop that may have stopped with a TypeError (`ok` false). */
  datatype Outcome = Outcome(registry: Registry, ok: bool)

  /** The second loop of `setupStyles`; a TypeError stops it with the tables as they are then. */
  function LinkAll(r: Registry, es: seq<StyleEntry>): (out: Outcome)
    requires IdsInRange(r.ids, |r.byId|) && KeysIn(es, r.ids)
    ensures out.registry.ids == r.ids && |out.registry.byId| == |r.byId|
    ensures out.registry.byName.Keys == r.byName.Keys
  {
    if es == [] then Outcome(r, true)
    else
      assert KeysIn(es[..|es| - 1], r.ids) by {
        assert forall i :: 0 <= i < |es| - 1 ==> es[..|es| - 1][i] == es[i];
      }
      var prev := LinkAll(r, es[..|es| - 1]);
      if !prev.ok then prev
      else
        match Link(prev.registry, es[|es| - 1])
        case None => Outcome(prev.registry, false)
        case Some(next) => Outcome(next, true)
  }

  /** `setupStyles` on tables `r` and the registered descriptors `es`. */
  function Setup(r: Registry, es: seq<StyleEntry>): Outcome
    requires Valid(r)
  {
    RegisterAllKeys(r, es);
    RegisterAllValid(r, es);
    LinkAll(RegisterAll(r, es), es)
  }

  /** The second loop keeps every id in the tables naming a style. */
  lemma {:induction false} LinkAllValid(r: Registry, es: seq<StyleEntry>)
    requires Valid(r) && KeysIn(es, r.ids)
    ensures Valid(LinkAll(r, es).registry)
  {
    if es != [] {
      var n := |es| - 1;
      assert KeysIn(es[..n], r.ids) by {
        assert forall i :: 0 <= i < n ==> es[..n][i] == es[i];
      }
      LinkAllValid(r, es[..n]);
    }
  }

  /** `setupStyles` keeps every id in the tables naming a style, so `addControlStyles` may follow it. */
  lemma SetupValid(r: Registry, es: seq<StyleEntry>)
    requires Valid(r)
    ensures Valid(Setup(r, es).registry)
  {
    RegisterAllKeys(r, es);
    RegisterAllValid(r, es);
    LinkAllValid(RegisterAll(r, es), es);
  }

  /** Each pass of the second loop links one more key, unless an earlier pass threw. */
  lemma LinkStep(r: Registry, es: seq<StyleEntry>, i: nat)
    requires IdsInRange(r.ids, |r.byId|) && KeysIn(es, r.ids)
    requires i < |es|
    ensures var prev := LinkAll(r, es[..i]);
      LinkAll(r, es[..i + 1]) ==
        if !prev.ok then prev
        else match Link(prev.registry, es[i])
          case None => Outcome(prev.registry, false)
          case Some(next) => Outcome(next, true)
  {
    assert es[..i + 1][..i] == es[..i];
  }

  /*** What setupStyles builds ***/

  /** Distinct keys, as the keys of a JavaScript object are. */
  predicate DistinctKeys(es: seq<StyleEntry>) {
    forall i, j :: 0 <= i < j < |es| ==> es[i].key != es[j].key
  }

  /** Keys that are distinct stay distinct in a prefix. */
  lemma DistinctPrefix(es: seq<StyleEntry>, n: nat)
    requires DistinctKeys(es) && n <= |es|
    ensures DistinctKeys(es[..n])
  {
    forall i, j | 0 <= i < j < n ensures es[..n][i].key != es[..n][j].key {
      assert es[..n][i] == es[i] && es[..n][j] == es[j];
    }
  }

  /** The first loop gives key number i the id i. */
  lemma {:induction false} RegisterAllIds(r: Registry, es: seq<StyleEntry>)
    requires DistinctKeys(es)
    ensures forall i :: 0 <= i < |es| ==> es[i].key in RegisterAll(r, es).ids && RegisterAll(r, es).ids[es[i].key] == i
  {
    if es != [] {
      var n := |es| - 1;
      DistinctPrefix(es, n);
      RegisterAllIds(r, es[..n]);
      assert forall i :: 0 <= i < n ==> es[i] == es[..n][i];
    }
  }

  /** The first loop builds the style of key number i from its descriptor and selector, with id i. */
  lemma {:induction false} RegisterAllStyles(r: Registry, es: seq<StyleEntry>)
    ensures forall i :: 0 <= i < |es| ==>
      RegisterAll(r, es).byId[i] == FromDescriptor(es[i].descriptor, i, KeySelector(es[i].key))
  {
    if es != [] {
      var n := |es| - 1;
      RegisterAllStyles(r, es[..n]);
      assert forall i :: 0 <= i < n ==> es[i] == es[..n][i];
    }
  }

  /** The first loop lists under every name the ids of its keys, in order, after those already listed. */
  lemma {:induction false} RegisterAllNames(r: Registry, es: seq<StyleEntry>, name: string)
    ensures Listed(RegisterAll(r, es).byName, name) == Listed(r.byName, name) + IdsNamed(es, name)
  {
    if es != [] {
      RegisterAllNames(r, es[..|es| - 1], name);
    }
  }

  /** The ids of the child keys in `es` whose child name is `name`, in order. */
  function ChildIds(ids: map<string, int>, es: seq<StyleEntry>, name: string): seq<int>
    requires forall i :: 0 <= i < |es| ==> es[i].key in ids
  {
    if es == [] then []
    else
      var e := es[|es| - 1];
      ChildIds(ids, es[..|es| - 1], name) + (if Child(e.key) == Some(name) then [ids[e.key]] else [])
  }

  /** The second loop runs to its end exactly when every child name is a registered name. */
  lemma {:induction false} LinkAllSucceeds(r: Registry, es: seq<StyleEntry>)
    requires IdsInRange(r.ids, |r.byId|) && KeysIn(es, r.ids)
    ensures LinkAll(r, es).ok <==> forall i :: 0 <= i < |es| && Child(es[i].key).Some? ==> Child(es[i].key).value in r.byName
  {
    if es != [] {
      var n := |es| - 1;
      LinkAllSucceeds(r, es[..n]);
      assert forall i :: 0 <= i < n ==> es[..n][i] == es[i];
    }
  }

  /**
   * When the second loop completes, each child key's style has been pushed,
   * in order, onto the list of its child name, and nothing else was listed.
   */
  lemma {:induction false} LinkAllLists(r: Registry, es: seq<StyleEntry>)
    requires IdsInRange(r.ids, |r.byId|) && KeysIn(es, r.ids)
    requires LinkAll(r, es).ok
    ensures forall name :: Listed(LinkAll(r, es).registry.byName, name) == Listed(r.byName, name) + ChildIds(r.ids, es, name)
  {
    if es != [] {
      var n := |es| - 1;
      assert forall i :: 0 <= i < n ==> es[..n][i] == es[i];
      LinkAllLists(r, es[..n]);
    }
  }

  /** Ids that no key of `es` is registered under. */
  predicate Untouched(r: Registry, es: seq<StyleEntry>, j: int)
    requires KeysIn(es, r.ids)
  {
    forall i :: 0 <= i < |es| ==> r.ids[es[i].key] != j
  }

  /** The second loop changes nothing of a style but its target. */
  lemma {:induction false} LinkAllOnlyTargets(r: Registry, es: seq<StyleEntry>)
    requires IdsInRange(r.ids, |r.byId|) && KeysIn(es, r.ids)
    ensures var out := LinkAll(r, es).registry;
      forall j :: 0 <= j < |r.byId| ==> out.byId[j].(target := r.byId[j].target) == r.byId[j]
  {
    if es != [] {
      var n := |es| - 1;
      assert KeysIn(es[..n], r.ids) by {
        assert forall i :: 0 <= i < n ==> es[..n][i] == es[i];
      }
      LinkAllOnlyTargets(r, es[..n]);
    }
  }

  /** The second loop leaves the style of an id no key of `es` maps to as it was. */
  lemma {:induction false} LinkAllUntouched(r: Registry, es: seq<StyleEntry>, j: int)
    requires IdsInRange(r.ids, |r.byId|) && KeysIn(es, r.ids)
    requires 0 <= j < |r.byId| && Untouched(r, es, j)
    ensures LinkAll(r, es).registry.byId[j] == r.byId[j]
  {
    if es != [] {
      var n := |es| - 1;
      assert KeysIn(es[..n], r.ids) && Untouched(r, es[..n], j) by {
        assert forall i :: 0 <= i < n ==> es[..n][i] == es[i];
      }
      LinkAllUntouched(r, es[..n], j);
    }
  }

  /**
   * When the second loop completes, the style of each child key targets the
   * style of its parent key (or `undefined`); the styles of other keys keep
   * their targets.
   */
  lemma {:induction false} LinkAllTargets(r: Registry, es: seq<StyleEntry>)
    requires IdsInRange(r.ids, |r.byId|) && KeysIn(es, r.ids)
    requires forall i, j :: 0 <= i < j < |es| ==> r.ids[es[i].key] != r.ids[es[j].key]
    requires LinkAll(r, es).ok
    ensures forall i :: 0 <= i < |es| ==>
      LinkAll(r, es).registry.byId[r.ids[es[i].key]] ==
        if Child(es[i].key).Some? then r.byId[r.ids[es[i].key]].(target := TargetOf(r, es[i].key))
        else r.byId[r.ids[es[i].key]]
  {
    if es != [] {
      var n := |es| - 1;
      var front := es[..n];
      assert forall i :: 0 <= i < n ==> front[i] == es[i];
      LinkAllTargets(r, front);
      var prev := LinkAll(r, front).registry;
      var e := es[n];
      var id := r.ids[e.key];
      LinkAllUntouched(r, front, id);
      LinkAllOnlyTargets(r, front);
      var parent := ParentKey(e.key);
      if parent in r.ids {
        assert prev.byId[r.ids[parent]].id == r.byId[r.ids[parent]].id;
      }
      assert TargetOf(prev, e.key) == TargetOf(r, e.key);
    }
  }

  /** A name is listed after the first loop exactly when it was listed before or some key has it. */
  lemma {:induction false} RegisterAllListsNames(r: Registry, es: seq<StyleEntry>, name: string)
    ensures name in RegisterAll(r, es).byName <==> name in r.byName || IdsNamed(es, name) != []
  {
    if es != [] {
      RegisterAllListsNames(r, es[..|es| - 1], name);
    }
  }

  /** `setupStyles` on a fresh manager gives key number i the id i. */
  lemma SetupIds(es: seq<StyleEntry>)
    requires DistinctKeys(es)
    ensures var out := Setup(EMPTY, es).registry;
      |out.byId| == |es| && KeysIn(es, out.ids) && forall i :: 0 <= i < |es| ==> out.ids[es[i].key] == i
  {
    RegisterAllKeys(EMPTY, es);
    RegisterAllIds(EMPTY, es);
  }

  /** `setupStyles` on a fresh manager completes exactly when every child name is the name of some key. */
  lemma SetupCompletes(es: seq<StyleEntry>)
    ensures Setup(EMPTY, es).ok <==>
      forall i :: 0 <= i < |es| && Child(es[i].key).Some? ==> IdsNamed(es, Child(es[i].key).value) != []
  {
    var registered := RegisterAll(EMPTY, es);
    RegisterAllKeys(EMPTY, es);
    RegisterAllValid(EMPTY, es);
    LinkAllSucceeds(registered, es);
    forall i | 0 <= i < |es| && Child(es[i].key).Some?
      ensures Child(es[i].key).value in registered.byName <==> IdsNamed(es, Child(es[i].key).value) != []
    {
      RegisterAllListsNames(EMPTY, es, Child(es[i].key).value);
    }
  }

  /**
   * When `setupStyles` on a fresh manager completes, key number i has the
   * style of its descriptor and selector, targeting its parent key's style
   * when it is a child key.
   */
  lemma SetupBuildsStyles(es: seq<StyleEntry>)
    requires DistinctKeys(es) && Setup(EMPTY, es).ok
    ensures var out := Setup(EMPTY, es).registry;
      forall i :: 0 <= i < |es| ==>
        out.byId[i] == FromDescriptor(es[i].descriptor, i, KeySelector(es[i].key)).(target := SetupTarget(out.ids, es[i].key))
  {
    var registered := RegisterAll(EMPTY, es);
    RegisterAllKeys(EMPTY, es);
    RegisterAllValid(EMPTY, es);
    RegisterAllIds(EMPTY, es);
    RegisterAllStyles(EMPTY, es);
    LinkAllTargets(registered, es);
    var out := LinkAll(registered, es).registry;
    forall i | 0 <= i < |es|
      ensures out.byId[i] == FromDescriptor(es[i].descriptor, i, KeySelector(es[i].key)).(target := SetupTarget(out.ids, es[i].key))
    {
      assert registered.ids[es[i].key] == i;
      var parent := ParentKey(es[i].key);
      if Child(es[i].key).Some? && parent in registered.ids {
        assert registered.byId[registered.ids[parent]].id == registered.ids[parent];
      }
    }
  }

  /**
   * When `setupStyles` on a fresh manager completes, every name lists its
   * keys in order, followed by the child keys naming it as their child.
   */
  lemma SetupLists(es: seq<StyleEntry>)
    requires Setup(EMPTY, es).ok
    ensures var out := Setup(EMPTY, es).registry;
      KeysIn(es, out.ids) &&
      forall name :: Listed(out.byName, name) == IdsNamed(es, name) + ChildIds(out.ids, es, name)
  {
    var registered := RegisterAll(EMPTY, es);
    RegisterAllKeys(EMPTY, es);
    RegisterAllValid(EMPTY, es);
    LinkAllLists(registered, es);
    forall name ensures Listed(LinkAll(registered, es).registry.byName, name) == IdsNamed(es, name) + ChildIds(registered.ids, es, name) {
      RegisterAllNames(EMPTY, es, name);
    }
  }

  /*** The manager ***/

  /** ui.UIManager, reduced to its style tables. */
  class UIManager {
    /** `styles` before `setupStyles`: the registered descriptors in key enumeration order. */
    const descriptors: seq<StyleEntry>
    /** `stylesById`. */
    var stylesById: seq<Style>
    /** `stylesByName`, as ids into `stylesById`. */
    var stylesByName: map<string, seq<int>>
    /** `styles` after `setupStyles`: key to id. */
    var styleIds: map<string, int>

    /** The style tables as one value. */
    function Tables(): Registry
      reads this
    {
      Registry(stylesById, stylesByName, styleIds)
    }

    /** A manager with the given registered descriptors and empty tables. */
    constructor(descriptors: seq<StyleEntry>)
      ensures this.descriptors == descriptors && Tables() == EMPTY
    {
      this.descriptors := descriptors;
      stylesById := [];
      stylesByName := map[];
      styleIds := map[];
    }

    /**
     * `setupStyles`: wraps every descriptor into a style, then links child
     * keys. `ok` is false when pushing onto an unknown child name threw.
     */
    method SetupStyles() returns (ok: bool)
      requires Valid(Tables())
      modifies this
      ensures Tables() == Setup(old(Tables()), descriptors).registry
      ensures ok == Setup(old(Tables()), descriptors).ok
    {
      RegisterAllKeys(Tables(), descriptors);
      RegisterAllValid(Tables(), descriptors);
      RegisterStyles();
      ok := LinkStyles();
    }

    /** The first loop of `setupStyles`: every key gets the next id and a style, listed under its name. */
    method RegisterStyles()
      modifies this
      ensures Tables() == RegisterAll(old(Tables()), descriptors)
    {
      var i := 0;
      while i < |descriptors|
        invariant 0 <= i <= |descriptors|
        invariant Tables() == RegisterAll(old(Tables()), descriptors[..i])
      {
        var e := descriptors[i];
        RegisterStep(old(Tables()), descriptors, i);
        ghost var prev := Tables();
        stylesById := Put(stylesById, i, FromDescriptor(e.descriptor, i, KeySelector(e.key)));
        var name := KeyName(e.key);
        // a name seen for the first time gets a new, empty list
        var list := if name in stylesByName then stylesByName[name] else [];
        stylesByName := stylesByName[name := list + [i]];
        styleIds := styleIds[e.key := i];
        assert Tables() == Register(prev, e, i);
        i := i + 1;
      }
      assert descriptors[..i] == descriptors;
    }

    /**
     * The second loop of `setupStyles`: every child key's style is listed
     * under its child name and targets its parent key's style; false when
     * a child name has no list, where `push` on the missing list throws a
     * TypeError.
     */
    method LinkStyles() returns (ok: bool)
      requires IdsInRange(styleIds, |stylesById|) && KeysIn(descriptors, styleIds)
      modifies this
      ensures Outcome(Tables(), ok) == LinkAll(old(Tables()), descriptors)
    {
      var i := 0;
      while i < |descriptors|
        invariant 0 <= i <= |descriptors|
        invariant LinkAll(old(Tables()), descriptors[..i]) == Outcome(Tables(), true)
      {
        var e := descriptors[i];
        LinkStep(old(Tables()), descriptors, i);
        var child := Child(e.key);
        if child.Some? {
          if child.value !in stylesByName {
            LinkAllStopped(old(Tables()), descriptors, i + 1);
            return false;
          }
          var id := styleIds[e.key];
          stylesByName := stylesByName[child.value := stylesByName[child.value] + [id]];
          var parent := ParentKey(e.key);
          var target := if parent in styleIds then Some(stylesById[styleIds[parent]].id) else None;
          stylesById := stylesById[id := stylesById[id].(target := target)];
        }
        i := i + 1;
      }
      assert descriptors[..i] == descriptors;
      return true;
    }

    /**
     * `addControlStyles`: the styles of every name in `names` that has
     * styles are pushed onto the control's style list in order, and those
     * for the control itself (target -1) with the normal selector are
     * applied as they are pushed.
     */
    method AddControlStyles(control: Widget, names: seq<string>)
      requires Valid(Tables())
      modifies control
      ensures control.styles == old(control.styles) + Attached(Tables(), names)
      ensures control.State() == ApplyAuto(old(control.State()), Attached(Tables(), names))
    {
      var r := Tables();
      var j := 0;
      while j < |names|
        invariant 0 <= j <= |names|
        invariant control.styles == old(control.styles) + Attached(r, names[..j])
        invariant control.State() == ApplyAuto(old(control.State()), Attached(r, names[..j]))
      {
        ghost var styles := control.styles;
        ghost var state := control.State();
        if names[j] in stylesByName {
          AttachStyles(control, stylesByName[names[j]]);
        }
        AttachNameStep(r, names, j, old(control.styles), styles, control.styles, old(control.State()), state, control.State());
        j := j + 1;
      }
      assert names[..j] == names;
    }

    /**
     * The inner loop of `addControlStyles` over the styles of one name:
     * each is pushed onto the control's list and applied when it applies on
     * attaching.
     */
    method AttachStyles(control: Widget, ids: seq<int>)
      requires forall i :: 0 <= i < |ids| ==> 0 <= ids[i] < |stylesById|
      modifies control
      ensures control.styles == old(control.styles) + Resolve(stylesById, ids)
      ensures control.State() == ApplyAuto(old(control.State()), Resolve(stylesById, ids))
    {
      var l := 0;
      while l < |ids|
        invariant 0 <= l <= |ids|
        invariant control.styles == old(control.styles) + Resolve(stylesById, ids[..l])
        invariant control.State() == ApplyAuto(old(control.State()), Resolve(stylesById, ids[..l]))
      {
        var style := stylesById[ids[l]];
        ghost var styles := control.styles;
        ghost var state := control.State();
        control.styles := control.styles + [style];
        if style.target == Some(-1) && style.selector == 0 {
          style.Apply(control);
        }
        AttachStep(stylesById, ids, l, old(control.styles), styles, control.styles, old(control.State()), state, control.State());
        l := l + 1;
      }
      assert ids[..l] == ids;
    }
  }

  /**
   * One pass of the inner loop of `addControlStyles`: attaching one more
   * style extends the attached styles by it and applies it to the state
   * when it applies on attaching.
   */
  lemma AttachStep(byId: seq<Style>, ids: seq<int>, l: nat,
                   base: seq<Style>, styles: seq<Style>, styles': seq<Style>,
                   w0: WidgetState, w: WidgetState, w': WidgetState)
    requires l < |ids| && forall i :: 0 <= i < |ids| ==> 0 <= ids[i] < |byId|
    requires styles == base + Resolve(byId, ids[..l]) && w == ApplyAuto(w0, Resolve(byId, ids[..l]))
    requires styles' == styles + [byId[ids[l]]]
    requires w' == if AppliesOnAttach(byId[ids[l]]) then ApplyTo(w, byId[ids[l]]) else w
    ensures styles' == base + Resolve(byId, ids[..l + 1]) && w' == ApplyAuto(w0, Resolve(byId, ids[..l + 1]))
  {
    var attached := Resolve(byId, ids[..l]);
    assert ids[..l + 1][..l] == ids[..l];
    assert Resolve(byId, ids[..l + 1]) == attached + [byId[ids[l]]];
    assert (attached + [byId[ids[l]]])[..|attached|] == attached;
  }

  /**
   * One pass of the outer loop of `addControlStyles`: attaching the styles of
   * one more name extends the attached styles and the control's state by
   * those of that name.
   */
  lemma AttachNameStep(r: Registry, names: seq<string>, j: nat,
                       base: seq<Style>, styles: seq<Style>, styles': seq<Style>,
                       w0: WidgetState, w: WidgetState, w': WidgetState)
    requires Valid(r) && j < |names|
    requires styles == base + Attached(r, names[..j]) && w == ApplyAuto(w0, Attached(r, names[..j]))
    requires names[j] in r.byName ==>
      styles' == styles + Resolve(r.byId, r.byName[names[j]]) && w' == ApplyAuto(w, Resolve(r.byId, r.byName[names[j]]))
    requires names[j] !in r.byName ==> styles' == styles && w' == w
    ensures styles' == base + Attached(r, names[..j + 1]) && w' == ApplyAuto(w0, Attached(r, names[..j + 1]))
  {
    AttachedStep(r, names, j);
    if names[j] in r.byName {
      ApplyAutoAppend(w0, Attached(r, names[..j]), Resolve(r.byId, r.byName[names[j]]));
    } else {
      assert Attached(r, names[..j + 1]) == Attached(r, names[..j]);
    }
  }

  /** Attaching one more name attaches its styles, if it has any, after the others. */
  lemma AttachedStep(r: Registry, names: seq<string>, j: nat)
    requires Valid(r) && j < |names|
    ensures Attached(r, names[..j + 1]) ==
      Attached(r, names[..j]) + (if names[j] in r.byName then Resolve(r.byId, r.byName[names[j]]) else [])
  {
    assert names[..j + 1][..j] == names[..j];
  }

  /** Once the second loop has stopped with a TypeError, later keys change nothing. */
  lemma {:induction false} LinkAllStopped(r: Registry, es: seq<StyleEntry>, k: nat)
    requires IdsInRange(r.ids, |r.byId|) && KeysIn(es, r.ids)
    requires k <= |es| && !LinkAll(r, es[..k]).ok
    ensures LinkAll(r, es) == LinkAll(r, es[..k])
  {
    if k < |es| {
      var n := |es| - 1;
      assert es[..n][..k] == es[..k];
      LinkAllStopped(r, es[..n], k);
    } else {
      assert es[..k] == es;
    }
  }

  /** The styles `addControlStyles` attaches for `names`, in order. */
  function Attached(r: Registry, names: seq<string>): seq<Style>
    requires Valid(r)
  {
    if names == [] then []
    else
      var name := names[|names| - 1];
      Attached(r, names[..|names| - 1]) + (if name in r.byName then Resolve(r.byId, r.byName[name]) else [])
  }

  /** A style `addControlStyles` applies on attaching it: one for the control itself with the normal selector. */
  predicate AppliesOnAttach(s: Style) {
    s.target == Some(-1) && s.selector == 0
  }

  /** The control's state after attaching `styles` in order. */
  function ApplyAuto(w: WidgetState, styles: seq<Style>): WidgetState {
    if styles == [] then w
    else
      var prev := ApplyAuto(w, styles[..|styles| - 1]);
      var s := styles[|styles| - 1];
      if AppliesOnAttach(s) then ApplyTo(prev, s) else prev
  }

  /** Attaching two runs of styles is attaching the first, then the second. */
  lemma {:induction false} ApplyAutoAppend(w: WidgetState, a: seq<Style>, b: seq<Style>)
    ensures ApplyAuto(w, a + b) == ApplyAuto(ApplyAuto(w, a), b)
  {
    if b == [] {
      assert a + b == a;
    } else {
      var n := |b| - 1;
      ApplyAutoAppend(w, a, b[..n]);
      assert (a + b)[..|a + b| - 1] == a + b[..n];
    }
  }

  /** Attaching styles keeps the cascade invariant of the control. */
  lemma {:induction false} ApplyAutoKeepsCascade(w: WidgetState, styles: seq<Style>)
    requires Cascaded(w)
    ensures Cascaded(ApplyAuto(w, styles))
  {
    if styles != [] {
      ApplyAutoKeepsCascade(w, styles[..|styles| - 1]);
      var s := styles[|styles| - 1];
      if AppliesOnAttach(s) {
        ApplyKeepsCascade(ApplyAuto(w, styles[..|styles| - 1]), s);
      }
    }
  }

  /**
   * Attaching styles keeps the styles already active, below the new ones;
   * afterwards every attached style that applies on attaching is active,
   * and every newly active style is one of those.
   */
  lemma {:induction false} ApplyAutoActivates(w: WidgetState, styles: seq<Style>)
    ensures var out := ApplyAuto(w, styles);
      |w.stack| <= |out.stack| && out.stack[..|w.stack|] == w.stack &&
      (forall i :: 0 <= i < |styles| && AppliesOnAttach(styles[i]) ==> styles[i] in out.stack) &&
      (forall s :: s in out.stack ==> s in w.stack || (s in styles && AppliesOnAttach(s)))
  {
    if styles != [] {
      var front := styles[..|styles| - 1];
      ApplyAutoActivates(w, front);
      var prev := ApplyAuto(w, front);
      var s := styles[|styles| - 1];
      var out := ApplyAuto(w, styles);
      if AppliesOnAttach(s) && s !in prev.stack {
        assert out.stack == prev.stack + [s];
        assert out.stack[..|w.stack|] == prev.stack[..|w.stack|];
      }
      forall i | 0 <= i < |styles| && AppliesOnAttach(styles[i]) ensures styles[i] in out.stack {
        if i < |styles| - 1 {
          assert styles[i] == front[i];
        }
      }
      forall t | t in out.stack ensures t in w.stack || (t in styles && AppliesOnAttach(t)) {
        if t in prev.stack && t !in w.stack {
          assert t in front;
        }
      }
    }
  }

  /** A name without styles attaches nothing. */
  lemma UnknownNameAttachesNothing(r: Registry, names: seq<string>, name: string)
    requires Valid(r) && name !in r.byName
    ensures Attached(r, names + [name]) == Attached(r, names)
  {
    assert (names + [name])[..|names|] == names;
  }

  /*** Formulas ***/

  /**
   * ui.Formula, reduced to the state `onChange` and `onTextChange` keep:
   * the arrays of custom numbers and strings (the constructor's loops run
   * to the array length inclusive, so each holds 11 entries).
   */
  class Formula {
    /** True until the formula function has run once. */
    var onInitialize: bool
    /** The optional event name that triggers the formula. */
    var event: Option<string>
    /** `numbers`; the first entry is the value `onChange` compares against. */
    var numbers: seq<int>
    /** `strings`; the first entry is the value `onTextChange` compares against. */
    var strings: seq<string>

    /** A formula in its initial state: every number 0, every string empty. */
    constructor(event: Option<string>)
      ensures onInitialize && this.event == event
      ensures numbers == seq(11, _ => 0) && strings == seq(11, _ => "")
    {
      onInitialize := true;
      this.event := event;
      var n: seq<int> := [];
      var i := 0;
      while i <= 10
        invariant 0 <= i <= 11 && n == seq(i, _ => 0)
      {
        n := n + [0];
        i := i + 1;
      }
      var s: seq<string> := [];
      i := 0;
      while i <= 10
        invariant 0 <= i <= 11 && s == seq(i, _ => "")
      {
        s := s + [""];
        i := i + 1;
      }
      numbers := n;
      strings := s;
    }

    /** `onChange`: whether the value differs from the one stored last, which it then replaces. */
    method OnChange(value: int) returns (changed: bool)
      requires |numbers| > 0
      modifies this
      ensures changed <==> old(numbers[0]) != value
      ensures numbers == old(numbers)[0 := value]
      ensures strings == old(strings) && onInitialize == old(onInitialize) && event == old(event)
    {
      changed := numbers[0] != value;
      numbers := numbers[0 := value];
    }

    /** `onTextChange`: whether the text differs from the one stored last, which it then replaces. */
    method OnTextChange(text: string) returns (changed: bool)
      requires |strings| > 0
      modifies this
      ensures changed <==> old(strings[0]) != text
      ensures strings == old(strings)[0 := text]
      ensures numbers == old(numbers) && onInitialize == old(onInitialize) && event == old(event)
    {
      changed := strings[0] != text;
      strings := strings[0 := text];
    }
  }

  /** Checking the same value twice: the second check reports no change. */
  method OnChangeTwice(f: Formula, value: int) returns (first: bool, second: bool)
    requires |f.numbers| > 0
    modifies f
    ensures !second && (first <==> old(f.numbers[0]) != value)
  {
    first := f.OnChange(value);
    second := f.OnChange(value);
  }
}
