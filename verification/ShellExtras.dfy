/** Loading the interactive extras into an IPython shell, and taking them out. */
module ShellExtras {
  import opened Prelude

  datatype Key = Key(kind: string, name: string)

  datatype Owner = ManagedSparkMagics | SparkSqlMagics | SomeoneElse

  /** A magic's function: which object it is, whether its module is our extension
      or inside it, and what it is bound to. */
  datatype Fn = Fn(id: nat, fromOurModule: bool, owner: Owner)

  type Table = map<Key, Fn>

  const EXTENSION := "google.cloud.managed_spark_magics"
  const SPARKSQL := "google.cloud.managed_spark_magics.sparksql"

  const DPIP := Key("line", "dpip")
  const MAGICS := [DPIP, Key("line", "sparksql"), Key("cell", "sparksql")]

  /** The shell (its magics, what `explore_dataframe` is bound to, the extensions
      IPython lists as loaded) and our own record of what we put there. */
  datatype Shell = Shell(magics: Table, explore: Option<nat>, loaded: set<string>,
                         injected: Option<nat>, ours: bool, added: seq<Key>)

  /** What loading meets: the function colabsqlviz would provide, if installed; its
      import working; the extension being imported at this moment, being
      installed, and what loading it does. */
  datatype Loading = Loading(viz: Option<nat>, vizWorks: bool, initializing: bool, installed: bool, outcome: Outcome)

  datatype Outcome = Registered(fns: Table) | Refused | Raised(partial: Table)

  /** What code outside our module does. */
  datatype Action = Register(key: Key, fn: Fn) | Delete(key: Key) | Define(obj: nat) | Undefine

  function Present(m: Table, keys: seq<Key>): Table {
    map k | k in m && k in keys :: m[k]
  }

  function Without(keys: seq<Key>, m: Table): seq<Key> {
    if keys == [] then [] else (if keys[0] in m then [] else [keys[0]]) + Without(keys[1..], m)
  }

  predicate ExtensionLoaded(s: Shell, initializing: bool) {
    initializing || EXTENSION in s.loaded || forall k :: k in MAGICS ==> k in s.magics
  }

  function Inject(s: Shell, l: Loading): Shell {
    if l.viz.Some? && l.vizWorks && s.explore.None? then s.(explore := l.viz, injected := l.viz) else s
  }

  predicate Tries(s: Shell, l: Loading) {
    !s.ours && !ExtensionLoaded(s, l.initializing) && l.installed
  }

  function Load(s: Shell, l: Loading): Shell {
    var t := Inject(s, l);
    if !Tries(s, l) then t
    else
      match l.outcome
      case Registered(fns) =>
        t.(magics := s.magics + fns + Present(s.magics, MAGICS), loaded := s.loaded + {EXTENSION}, ours := true,
           added := Without(MAGICS, Present(s.magics, MAGICS)))
      case Refused => t
      case Raised(partial) => t.(magics := s.magics + partial)
  }

  /** Whether the extension's own unload function removes this entry. */
  predicate UnloadRemoves(loaded: set<string>, k: Key, fn: Fn) {
    && EXTENSION in loaded
    && ( || (k == DPIP && fn.owner.ManagedSparkMagics?)
         || (k in MAGICS && k != DPIP && fn.owner.SparkSqlMagics? && SPARKSQL !in loaded))
  }

  /** Whether unloading removes this entry: it is under a name we added, and the
      extension, or our check of its module, takes it for ours. */
  predicate Removes(s: Shell, k: Key, fn: Fn) {
    s.ours && k in s.added && (UnloadRemoves(s.loaded, k, fn) || fn.fromOurModule)
  }

  function Unload(s: Shell): Shell {
    s.(explore := if s.injected.Some? && s.explore == s.injected then None else s.explore, injected := None,
       magics := map k | k in s.magics && !Removes(s, k, s.magics[k]) :: s.magics[k],
       loaded := if s.ours then s.loaded - {EXTENSION} else s.loaded, ours := false,
       added := if s.ours then [] else s.added)
  }

  function Act(s: Shell, a: Action): Shell {
    match a
    case Register(k, fn) => s.(magics := s.magics[k := fn])
    case Delete(k) => s.(magics := s.magics - {k})
    case Define(o) => s.(explore := Some(o))
    case Undefine => s.(explore := None)
  }

  function ActAll(s: Shell, actions: seq<Action>): Shell {
    if actions == [] then s else Act(ActAll(s, actions[..|actions| - 1]), Last(actions))
  }

  function At(m: Table, k: Key): Option<Fn> {
    if k in m then Some(m[k]) else None
  }

  lemma SameEverywhere(a: Table, b: Table)
    requires forall k :: At(a, k) == At(b, k)
    ensures a == b
  {
    forall k
      ensures k in a <==> k in b
      ensures k in a ==> a[k] == b[k]
    {
      assert At(a, k) == At(b, k);
    }
  }

  // ----- the code ------------------------------------------------------------

  class ShellExtras {
    var magics: Table
    var explore: Option<nat>
    var loaded: set<string>
    var injected: Option<nat>
    var ours: bool
    var added: seq<Key>

    function View(): Shell
      reads this
    {
      Shell(magics, explore, loaded, injected, ours, added)
    }

    /** What is added is among our magics. */
    predicate Valid()
      reads this
    {
      forall k :: k in added ==> k in MAGICS
    }

    constructor (magics: Table, explore: Option<nat>, loaded: set<string>)
      ensures Valid() && View() == Shell(magics, explore, loaded, None, false, [])
    {
      this.magics, this.explore, this.loaded := magics, explore, loaded;
      injected, ours, added := None, false, [];
    }

    /** Puts `saved` back, one entry at a time. */
    method PutBack(saved: Table)
      requires forall k :: k in saved ==> k in MAGICS
      modifies this`magics
      ensures magics == old(magics) + saved
    {
      var i := 0;
      while i < |MAGICS|
        invariant 0 <= i <= |MAGICS|
        invariant forall k :: At(magics, k) == if k in saved && k in MAGICS[..i] then Some(saved[k])
                                               else At(old(magics), k)
      {
        if MAGICS[i] in saved {
          magics := magics[MAGICS[i] := saved[MAGICS[i]]];
        }
        i := i + 1;
      }
      forall k
        ensures At(magics, k) == At(old(magics) + saved, k)
      {
        assert MAGICS[..|MAGICS|] == MAGICS;
      }
      SameEverywhere(magics, old(magics) + saved);
    }

    method LoadExtras(l: Loading)
      requires Valid()
      modifies this
      ensures Valid() && View() == Load(old(View()), l)
      // Bound where nothing was.
      ensures explore == (if l.viz.Some? && l.vizWorks && old(explore).None? then l.viz else old(explore))
      // The extension is left alone when it is loaded, being imported or missing, or
      // when all of its magics are there.
      ensures
        var there := || l.initializing || "google.cloud.managed_spark_magics" in old(loaded)
                     || (&& Key("line", "dpip") in old(magics) && Key("line", "sparksql") in old(magics)
                         && Key("cell", "sparksql") in old(magics));
        if old(ours) || there || !l.installed || l.outcome.Refused? then
          magics == old(magics) && loaded == old(loaded) && ours == old(ours) && added == old(added)
        else if l.outcome.Raised? then
          magics == old(magics) + l.outcome.partial && loaded == old(loaded) && !ours && added == old(added)
        else
          && loaded == old(loaded) + {"google.cloud.managed_spark_magics"} && ours
          && (forall k :: k in added <==> k in MAGICS && k !in old(magics))
          && forall k :: At(magics, k) == if k in MAGICS && k in old(magics) then Some(old(magics)[k])
                                          else if k in l.outcome.fns then Some(l.outcome.fns[k])
                                          else At(old(magics), k)
    {
      WithoutIsInside(MAGICS, Present(magics, MAGICS));
      AllMagics(magics);
      if l.viz.Some? {
        if injected.Some? && explore == injected {
        } else if explore.None? && l.vizWorks {
          explore := l.viz;
          injected := explore;
        }
      }
      if ours || ExtensionLoaded(View(), l.initializing) || !l.installed {
        return;
      }
      var existing := Present(magics, MAGICS);
      match l.outcome {
        case Registered(fns) =>
          magics := magics + fns;
          loaded := loaded + {EXTENSION};
          PutBack(existing);
          added := Without(MAGICS, existing);
          WithoutIsInside(MAGICS, existing);
          ours := true;
        case Refused =>
        case Raised(partial) =>
          magics := magics + partial;
      }
    }

    /** The extension's own unload function. */
    method UnloadExtension()
      modifies this`magics
      ensures magics == AfterExtension(old(magics), loaded)
      // Its own magics, as long as nothing else has loaded the part they come from.
      ensures forall k :: At(magics, k) ==
                if && "google.cloud.managed_spark_magics" in loaded && k in old(magics)
                   && ( || (k == Key("line", "dpip") && old(magics)[k].owner == ManagedSparkMagics)
                        || (&& k in {Key("line", "sparksql"), Key("cell", "sparksql")}
                            && old(magics)[k].owner == SparkSqlMagics
                            && "google.cloud.managed_spark_magics.sparksql" !in loaded))
                then None else At(old(magics), k)
    {
      if EXTENSION !in loaded {
        assert magics == AfterExtension(magics, loaded);
        return;
      }
      var i := 0;
      while i < |MAGICS|
        invariant 0 <= i <= |MAGICS|
        invariant forall k ::
                    At(magics, k) == if k in old(magics) && k in MAGICS[..i] && UnloadRemoves(loaded, k, old(magics)[k])
                                     then None else At(old(magics), k)
      {
        var k := MAGICS[i];
        if k in magics && (if k == DPIP then magics[k].owner.ManagedSparkMagics?
                           else magics[k].owner.SparkSqlMagics? && SPARKSQL !in loaded) {
          assert At(magics, k) == At(old(magics), k);
          magics := magics - {k};
        }
        i := i + 1;
      }
      forall k
        ensures At(magics, k) == At(AfterExtension(old(magics), loaded), k)
      {
        assert MAGICS[..|MAGICS|] == MAGICS;
      }
      SameEverywhere(magics, AfterExtension(old(magics), loaded));
    }

    method DeleteOurs(names: seq<Key>)
      modifies this`magics
      ensures magics == Kept(old(magics), names)
    {
      var i := 0;
      while i < |names|
        invariant 0 <= i <= |names|
        invariant forall k :: At(magics, k) == if k in old(magics) && k in names[..i] && old(magics)[k].fromOurModule
                                               then None else At(old(magics), k)
      {
        var k := names[i];
        if k in magics && magics[k].fromOurModule {
          assert At(magics, k) == At(old(magics), k);
          magics := magics - {k};
        }
        i := i + 1;
      }
      forall k
        ensures At(magics, k) == At(Kept(old(magics), names), k)
      {
        assert names[..|names|] == names;
      }
      SameEverywhere(magics, Kept(old(magics), names));
    }

    method UnloadExtras()
      requires Valid()
      modifies this
      ensures Valid() && View() == Unload(old(View()))
    {
      hide Unload, UnloadRemoves;
      UnloadIs(View());
      if injected.Some? {
        if explore == injected {
          explore := None;
        }
        injected := None;
      }
      if !ours {
        return;
      }
      var names := added;
      added := [];
      var preserved := Preserved(magics, names);
      UnloadExtension();
      PutBack(preserved);
      DeleteOurs(names);
      loaded := loaded - {EXTENSION};
      ours := false;
    }
  }

  lemma AllMagics(m: Table)
    ensures (forall k :: k in MAGICS ==> k in m) <==>
              Key("line", "dpip") in m && Key("line", "sparksql") in m && Key("cell", "sparksql") in m
  {
    assert MAGICS[0] == DPIP && MAGICS[1] == Key("line", "sparksql") && MAGICS[2] == Key("cell", "sparksql");
  }

  function Preserved(m: Table, names: seq<Key>): Table {
    map k | k in m && k in MAGICS && k !in names :: m[k]
  }

  function Kept(m: Table, names: seq<Key>): Table {
    map k | k in m && !(k in names && m[k].fromOurModule) :: m[k]
  }

  function AfterExtension(m: Table, loaded: set<string>): Table {
    map k | k in m && !UnloadRemoves(loaded, k, m[k]) :: m[k]
  }

  /** Unloading is the extension's own unload, what was there before put back, and
      the rest of ours deleted. */
  lemma UnloadIs(s: Shell)
    requires forall k :: k in s.added ==> k in MAGICS
    ensures
      var explore := if s.injected.Some? && s.explore == s.injected then None else s.explore;
      Unload(s) == if !s.ours then s.(explore := explore, injected := None)
                   else Shell(Kept(AfterExtension(s.magics, s.loaded) + Preserved(s.magics, s.added), s.added),
                              explore, s.loaded - {EXTENSION}, None, false, [])
  {
    var m := if !s.ours then s.magics
             else Kept(AfterExtension(s.magics, s.loaded) + Preserved(s.magics, s.added), s.added);
    forall k
      ensures At(Unload(s).magics, k) == At(m, k)
    {
    }
    SameEverywhere(Unload(s).magics, m);
  }

  lemma {:induction false} WithoutIsInside(keys: seq<Key>, m: Table)
    ensures forall k :: k in Without(keys, m) <==> k in keys && k !in m
  {
    if keys != [] {
      WithoutIsInside(keys[1..], m);
    }
  }

  // ----- what is left behind -------------------------------------------------

  predicate Touches(a: Action, k: Key) {
    (a.Register? || a.Delete?) && a.key == k
  }

  ghost predicate Touched(actions: seq<Action>, k: Key) {
    exists i :: 0 <= i < |actions| && Touches(actions[i], k)
  }

  ghost predicate Redefined(actions: seq<Action>) {
    exists i :: 0 <= i < |actions| && (actions[i].Define? || actions[i].Undefine?)
  }

  /** What others leave under a name is theirs once they touched it, and until then
      what it was; our record does not change. */
  lemma {:induction false} OutsideAt(s: Shell, t: Shell, actions: seq<Action>, k: Key)
    ensures
      var a, b := ActAll(s, actions), ActAll(t, actions);
      && At(a.magics, k) == (if Touched(actions, k) then At(b.magics, k) else At(s.magics, k))
      && a.explore == (if Redefined(actions) then b.explore else s.explore)
      && a.injected == s.injected && a.ours == s.ours && a.added == s.added && a.loaded == s.loaded
  {
    hide Touched, Redefined, Act, At, Touches;
    if actions == [] {
      NothingDone(k);
    } else {
      var rest := actions[..|actions| - 1];
      OutsideAt(s, t, rest, k);
      OneMoreDone(actions, k);
      ActAt(ActAll(s, rest), ActAll(t, rest), Last(actions), k);
    }
  }

  lemma ActAt(s: Shell, t: Shell, a: Action, k: Key)
    ensures
      var u, v := Act(s, a), Act(t, a);
      && At(u.magics, k) == (if Touches(a, k) then At(v.magics, k) else At(s.magics, k))
      && At(v.magics, k) == (if Touches(a, k) then At(u.magics, k) else At(t.magics, k))
      && u.explore == (if a.Define? || a.Undefine? then v.explore else s.explore)
      && v.explore == (if a.Define? || a.Undefine? then u.explore else t.explore)
      && u.injected == s.injected && u.ours == s.ours && u.added == s.added && u.loaded == s.loaded
  {
  }

  lemma NothingDone(k: Key)
    ensures !Touched([], k) && !Redefined([])
  {
  }

  lemma OneMoreDone(actions: seq<Action>, k: Key)
    requires actions != []
    ensures
      var rest, a := actions[..|actions| - 1], Last(actions);
      && (Touched(actions, k) <==> Touched(rest, k) || Touches(a, k))
      && (Redefined(actions) <==> Redefined(rest) || a.Define? || a.Undefine?)
  {
    var rest := actions[..|actions| - 1];
    if Touched(rest, k) {
      var i :| 0 <= i < |rest| && Touches(rest[i], k);
      assert Touches(actions[i], k);
    }
    if Redefined(rest) {
      var i :| 0 <= i < |rest| && (rest[i].Define? || rest[i].Undefine?);
      assert actions[i] == rest[i];
    }
  }

  /** No extras of ours in the shell. */
  predicate Fresh(s: Shell) {
    s.injected.None? && !s.ours && s.added == []
  }

  /** Our extension registers our three magics, from its own modules. */
  predicate RegistersOurs(o: Outcome) {
    match o
    case Registered(fns) => fns.Keys == (set k | k in MAGICS) && forall k :: k in fns ==> fns[k].fromOurModule
    case _ => true
  }

  lemma LoadedAt(s: Shell, l: Loading, k: Key)
    requires Fresh(s) && RegistersOurs(l.outcome)
    ensures
      var t := Load(s, l);
      && (!(Tries(s, l) && l.outcome.Raised?) ==>
            && (k in t.added <==> t.ours && k in MAGICS && k !in s.magics)
            && (k in t.added ==> k in t.magics && Removes(t, k, t.magics[k]))
            && (k !in t.added ==> At(t.magics, k) == At(s.magics, k)))
      && (Tries(s, l) && l.outcome.Raised? ==> !t.ours && t.magics == s.magics + l.outcome.partial)
  {
    WithoutIsInside(MAGICS, Present(s.magics, MAGICS));
  }

  /** A magic that was there before loading is there after it, and after unloading,
      exactly when loading the extension did not raise after replacing it. */
  lemma PresentMagicsSurvive(s: Shell, l: Loading, k: Key)
    requires Fresh(s) && RegistersOurs(l.outcome) && k in s.magics
    ensures
      var t := Load(s, l);
      At(t.magics, k) == At(s.magics, k) && At(Unload(t).magics, k) == At(s.magics, k)
      <==> !(&& Tries(s, l) && l.outcome.Raised?
             && k in l.outcome.partial && l.outcome.partial[k] != s.magics[k])
  {
    hide Load, UnloadRemoves, Tries;
    LoadedAt(s, l, k);
    NotAddedStays(Load(s, l), k);
  }

  /** Someone else's `%dpip`, replaced by an extension that then raises, does not come
      back. */
  lemma ReplacedForGood()
    ensures
      var theirs := Fn(1, false, SomeoneElse);
      var ours := Fn(2, true, ManagedSparkMagics);
      var s := Shell(map[DPIP := theirs], None, {}, None, false, []);
      var t := Load(s, Loading(None, false, false, true, Raised(map[DPIP := ours])));
      At(t.magics, DPIP) == Some(ours) && At(Unload(t).magics, DPIP) == Some(ours)
  {
    var s := Shell(map[DPIP := Fn(1, false, SomeoneElse)], None, {}, None, false, []);
    var l := Loading(None, false, false, true, Raised(map[DPIP := Fn(2, true, ManagedSparkMagics)]));
    assert MAGICS[1] !in s.magics;
    LoadedAt(s, l, DPIP);
    NotAddedStays(Load(s, l), DPIP);
  }

  lemma NotAddedStays(s: Shell, k: Key)
    ensures At(Unload(s).magics, k) == if k in s.magics && Removes(s, k, s.magics[k]) then None else At(s.magics, k)
    ensures k !in s.added ==> At(Unload(s).magics, k) == At(s.magics, k)
  {
  }

  /** Nothing others left under this name, which we added, passes for ours; if
      loading raised half-way, they replaced what it changed here. */
  ghost predicate UndoneAt(s: Shell, l: Loading, actions: seq<Action>, k: Key) {
    var t := Load(s, l);
    var o := ActAll(s, actions);
    if Tries(s, l) && l.outcome.Raised?
    then k in l.outcome.partial ==> Touched(actions, k) || At(s.magics, k) == Some(l.outcome.partial[k])
    else k in t.added && Touched(actions, k) && k in o.magics ==> !Removes(t, k, o.magics[k])
  }

  /** Loading, anything others do, then unloading leaves the magics as those other
      actions alone would have, exactly when that holds of every name. */
  lemma MagicsUndone(s: Shell, l: Loading, actions: seq<Action>)
    requires Fresh(s) && RegistersOurs(l.outcome)
    ensures Unload(ActAll(Load(s, l), actions)).magics == ActAll(s, actions).magics
            <==> forall k :: UndoneAt(s, l, actions, k)
  {
    hide Load, Unload, ActAll, UndoneAt, At;
    var u, o := Unload(ActAll(Load(s, l), actions)), ActAll(s, actions);
    forall k
      ensures At(u.magics, k) == At(o.magics, k) <==> UndoneAt(s, l, actions, k)
    {
      MagicUndone(s, l, actions, k);
    }
    if forall k :: UndoneAt(s, l, actions, k) {
      SameEverywhere(u.magics, o.magics);
    }
  }

  lemma MagicUndone(s: Shell, l: Loading, actions: seq<Action>, k: Key)
    requires Fresh(s) && RegistersOurs(l.outcome)
    ensures
      var a, o := ActAll(Load(s, l), actions), ActAll(s, actions);
      At(Unload(a).magics, k) == At(o.magics, k) <==> UndoneAt(s, l, actions, k)
  {
    hide Load, Unload, ActAll, Touched, Tries;
    var t := Load(s, l);
    LoadedAt(s, l, k);
    OutsideAt(t, s, actions, k);
    OutsideAt(s, t, actions, k);
    NotAddedStays(ActAll(t, actions), k);
  }

  /** `explore_dataframe` ends up as others alone would have left it, exactly when
      they did not bind it again to the very object we injected. */
  lemma ExploreUndone(s: Shell, l: Loading, actions: seq<Action>)
    requires Fresh(s)
    ensures
      var t := Load(s, l);
      var o := ActAll(s, actions);
      Unload(ActAll(t, actions)).explore == o.explore
      <==> !(t.injected.Some? && Redefined(actions) && o.explore == t.injected)
  {
    hide ActAll, Redefined;
    OutsideAt(Load(s, l), s, actions, DPIP);
    OutsideAt(s, Load(s, l), actions, DPIP);
  }

  /** So both happen: code that binds our own function under its name again loses
      it, where it would have kept it without us. */
  lemma OurOwnFunctionIsTaken()
    ensures
      var ours := Fn(0, true, ManagedSparkMagics);
      var others := map[MAGICS[1] := Fn(1, true, SparkSqlMagics), MAGICS[2] := Fn(2, true, SparkSqlMagics)];
      var s := Shell(map[], None, {}, None, false, []);
      var l := Loading(Some(7), true, false, true, Registered(others[DPIP := ours]));
      var actions := [Register(DPIP, ours), Define(7)];
      && Unload(ActAll(Load(s, l), actions)).magics != ActAll(s, actions).magics
      && Unload(ActAll(Load(s, l), actions)).explore != ActAll(s, actions).explore
  {
    var ours := Fn(0, true, ManagedSparkMagics);
    var others := map[MAGICS[1] := Fn(1, true, SparkSqlMagics), MAGICS[2] := Fn(2, true, SparkSqlMagics)];
    var s := Shell(map[], None, {}, None, false, []);
    var l := Loading(Some(7), true, false, true, Registered(others[DPIP := ours]));
    var actions := [Register(DPIP, ours), Define(7)];
    MagicsUndone(s, l, actions);
    ExploreUndone(s, l, actions);
    assert actions[..1] == [Register(DPIP, ours)];
    assert Touches(actions[0], DPIP) && actions[1].Define?;
    LoadedAt(s, l, DPIP);
    assert !UndoneAt(s, l, actions, DPIP);
  }
}
