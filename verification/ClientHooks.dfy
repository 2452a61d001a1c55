/** Wrappers installed on the methods of one client instance, and their removal. */
module ClientHooks {
  import opened Prelude

  /** A method of the client's class, an attribute that was there before any hook,
      or a wrapper around a method. */
  datatype Method = OfClass(name: string) | Own(id: nat) | Wrapper(tag: nat, inner: Method)

  type Attributes = map<string, Method>

  /** A hook on a name: its factory makes the wrapper `tag`, or raises. */
  datatype Hook = Hook(name: string, tag: nat, works: bool)

  /** What a name had in the instance dictionary; None when it was absent. */
  datatype Original = Original(name: string, had: Option<Method>)

  /** The instance dictionary, with the entry that remembers the originals, in the
      order they were recorded, kept apart. */
  datatype State = State(dict: Attributes, originals: Option<seq<Original>>)

  function GetAttr(dict: Attributes, ofClass: set<string>, name: string): Option<Method> {
    if name in dict then Some(dict[name]) else if name in ofClass then Some(OfClass(name)) else None
  }

  predicate Recorded(os: seq<Original>, name: string) {
    exists i :: 0 <= i < |os| && os[i].name == name
  }

  function Originals(s: State): seq<Original> {
    if s.originals.Some? then s.originals.value else []
  }

  function Record(s: State, name: string): State {
    var os := Originals(s);
    if Recorded(os, name) then s.(originals := Some(os))
    else s.(originals := Some(os + [Original(name, if name in s.dict then Some(s.dict[name]) else None)]))
  }

  predicate Hookable(s: State, ofClass: set<string>, h: Hook) {
    GetAttr(s.dict, ofClass, h.name).Some? && h.works
  }

  /** One hook installed; if that raises, the original is recorded all the same. */
  function InstallOne(s: State, ofClass: set<string>, h: Hook): State {
    var t := Record(s, h.name);
    if Hookable(s, ofClass, h)
    then t.(dict := s.dict[h.name := Wrapper(h.tag, GetAttr(s.dict, ofClass, h.name).value)])
    else t
  }

  /** Up to the first hook that raises. */
  function InstallAll(s: State, ofClass: set<string>, hooks: seq<Hook>): State
    decreases hooks
  {
    if hooks == [] then s.(originals := Some(Originals(s)))
    else if Hookable(s, ofClass, hooks[0]) then InstallAll(InstallOne(s, ofClass, hooks[0]), ofClass, hooks[1..])
    else InstallOne(s, ofClass, hooks[0])
  }

  function RestoreOne(dict: Attributes, o: Original): Attributes {
    match o.had
    case Some(m) => dict[o.name := m]
    case None => dict - {o.name}
  }

  function Undo(dict: Attributes, os: seq<Original>): Attributes
    decreases os
  {
    if os == [] then dict else Undo(RestoreOne(dict, os[0]), os[1..])
  }

  lemma EmptyEntry(s: State, ofClass: set<string>, hooks: seq<Hook>)
    ensures InstallAll(s, ofClass, hooks) == InstallAll(s.(originals := Some(Originals(s))), ofClass, hooks)
  {
  }

  lemma NothingToInstall(s: State, ofClass: set<string>)
    requires s.originals.Some?
    ensures InstallAll(s, ofClass, []) == s
  {
  }

  lemma NextInstall(s: State, ofClass: set<string>, hooks: seq<Hook>, i: nat)
    requires i < |hooks|
    ensures
      InstallAll(s, ofClass, hooks[i..])
      == if Hookable(s, ofClass, hooks[i]) then InstallAll(InstallOne(s, ofClass, hooks[i]), ofClass, hooks[i + 1..])
         else InstallOne(s, ofClass, hooks[i])
  {
    assert hooks[i..][0] == hooks[i] && hooks[i..][1..] == hooks[i + 1..];
  }

  class Client {
    /** Methods of the client's class. */
    const ofClass: set<string>
    var dict: Attributes
    var originals: Option<seq<Original>>

    function View(): State
      reads this
    {
      State(dict, originals)
    }

    constructor (ofClass: set<string>, dict: Attributes)
      ensures this.ofClass == ofClass && View() == State(dict, None)
    {
      this.ofClass, this.dict, originals := ofClass, dict, None;
    }

    method Install(hooks: seq<Hook>) returns (ok: bool)
      modifies this
      ensures View() == InstallAll(old(View()), ofClass, hooks)
      ensures ok <==> forall h :: h in hooks ==> h.works && GetAttr(old(dict), ofClass, h.name).Some?
    {
      hide InstallAll;
      EmptyEntry(View(), ofClass, hooks);
      if originals.None? {
        originals := Some([]);
      }
      var i := 0;
      while i < |hooks|
        invariant 0 <= i <= |hooks| && originals.Some?
        invariant InstallAll(View(), ofClass, hooks[i..]) == InstallAll(old(View()), ofClass, hooks)
        invariant forall n :: GetAttr(dict, ofClass, n).Some? <==> GetAttr(old(dict), ofClass, n).Some?
        invariant forall j :: 0 <= j < i ==> hooks[j].works && GetAttr(old(dict), ofClass, hooks[j].name).Some?
      {
        NextInstall(View(), ofClass, hooks, i);
        var name := hooks[i].name;
        if !Recorded(originals.value, name) {
          originals := Some(originals.value + [Original(name, if name in dict then Some(dict[name]) else None)]);
        }
        var inner := GetAttr(dict, ofClass, name);
        if inner.None? || !hooks[i].works {
          assert hooks[i] in hooks;
          return false;
        }
        dict := dict[name := Wrapper(hooks[i].tag, inner.value)];
        i := i + 1;
      }
      assert hooks[i..] == [];
      NothingToInstall(View(), ofClass);
      ok := true;
    }

    method Uninstall()
      modifies this
      ensures View() == State(Undo(old(dict), Originals(old(View()))), None)
      ensures old(originals).None? ==> View() == old(View())
    {
      var os := if originals.Some? then originals.value else [];
      originals := None;
      var i := 0;
      while i < |os|
        invariant 0 <= i <= |os| && originals.None?
        invariant Undo(dict, os[i..]) == Undo(old(dict), os)
      {
        assert os[i..][0] == os[i] && os[i..][1..] == os[i + 1..];
        if os[i].had.Some? {
          dict := dict[os[i].name := os[i].had.value];
        } else {
          dict := dict - {os[i].name};
        }
        i := i + 1;
      }
    }
  }

  // ----- undoing -------------------------------------------------------------

  ghost predicate Distinct(os: seq<Original>) {
    forall i, j :: 0 <= i < j < |os| ==> os[i].name != os[j].name
  }

  /** What a dictionary holds under a name. */
  function At(dict: Attributes, name: string): Option<Method> {
    if name in dict then Some(dict[name]) else None
  }

  lemma SameEverywhere(a: Attributes, b: Attributes)
    requires forall n :: At(a, n) == At(b, n)
    ensures a == b
  {
    forall n
      ensures n in a <==> n in b
      ensures n in a ==> a[n] == b[n]
    {
      assert At(a, n) == At(b, n);
    }
  }

  /** Undoing gives every recorded name what was recorded, and no other name
      anything. */
  lemma {:induction false} UndoAt(dict: Attributes, os: seq<Original>, name: string)
    requires Distinct(os)
    ensures forall i :: 0 <= i < |os| && os[i].name == name ==> At(Undo(dict, os), name) == os[i].had
    ensures !Recorded(os, name) ==> At(Undo(dict, os), name) == At(dict, name)
    decreases os
  {
    if os != [] {
      var rest := os[1..];
      assert forall i :: 0 <= i < |rest| ==> rest[i] == os[i + 1];
      UndoAt(RestoreOne(dict, os[0]), rest, name);
      if os[0].name == name {
        assert !Recorded(rest, name);
      } else {
        assert Recorded(rest, name) ==> Recorded(os, name);
      }
    }
  }

  /** One more hook changes nothing about what undoing would restore. */
  lemma InstallOneKeepsUndo(s: State, ofClass: set<string>, h: Hook)
    requires Distinct(Originals(s))
    ensures
      var t := InstallOne(s, ofClass, h);
      && Distinct(Originals(t)) && Recorded(Originals(t), h.name)
      && Undo(t.dict, Originals(t)) == Undo(s.dict, Originals(s))
  {
    var t := InstallOne(s, ofClass, h);
    var os, us := Originals(s), Originals(t);
    if !Recorded(os, h.name) {
      assert us[|us| - 1].name == h.name;
    }
    forall n
      ensures At(Undo(t.dict, us), n) == At(Undo(s.dict, os), n)
    {
      UndoAt(s.dict, os, n);
      UndoAt(t.dict, us, n);
      if Recorded(os, n) {
        var i :| 0 <= i < |os| && os[i].name == n;
        assert us[i].name == n && us[i] == os[i];
      } else if n != h.name {
        assert !Recorded(us, n);
      }
    }
    SameEverywhere(Undo(t.dict, us), Undo(s.dict, os));
  }

  lemma {:induction false} InstallKeepsUndo(s: State, ofClass: set<string>, hooks: seq<Hook>)
    requires Distinct(Originals(s))
    ensures
      var t := InstallAll(s, ofClass, hooks);
      && Distinct(Originals(t)) && t.originals.Some?
      && Undo(t.dict, Originals(t)) == Undo(s.dict, Originals(s))
    decreases hooks
  {
    hide Undo, InstallOne, Distinct;
    if hooks != [] {
      InstallOneKeepsUndo(s, ofClass, hooks[0]);
      if Hookable(s, ofClass, hooks[0]) {
        InstallKeepsUndo(InstallOne(s, ofClass, hooks[0]), ofClass, hooks[1..]);
      } else {
        assert InstallOne(s, ofClass, hooks[0]).originals.Some? by { InstallOneRecords(s, ofClass, hooks[0]); }
      }
    }
  }

  lemma InstallOneRecords(s: State, ofClass: set<string>, h: Hook)
    ensures InstallOne(s, ofClass, h).originals.Some?
  {
  }

  /** Any number of install calls. */
  function InstallCalls(s: State, ofClass: set<string>, calls: seq<seq<Hook>>): State {
    if calls == [] then s else InstallAll(InstallCalls(s, ofClass, calls[..|calls| - 1]), ofClass, Last(calls))
  }

  /** After any install calls on a client without hooks, whether or not some of
      them raised, one uninstall gives back its dictionary. */
  lemma {:induction false} OneUninstallRestores(dict: Attributes, ofClass: set<string>, calls: seq<seq<Hook>>)
    ensures
      var s := InstallCalls(State(dict, None), ofClass, calls);
      Distinct(Originals(s)) && Undo(s.dict, Originals(s)) == dict
  {
    hide InstallAll;
    if calls != [] {
      OneUninstallRestores(dict, ofClass, calls[..|calls| - 1]);
      InstallKeepsUndo(InstallCalls(State(dict, None), ofClass, calls[..|calls| - 1]), ofClass, Last(calls));
    }
  }

  // ----- calling -------------------------------------------------------------

  /** The wrappers a call runs through, in the order it does, and where it ends. */
  function Wrappers(m: Method): seq<nat> {
    if m.Wrapper? then [m.tag] + Wrappers(m.inner) else []
  }

  function Root(m: Method): Method {
    if m.Wrapper? then Root(m.inner) else m
  }

  /** The tags hooked on a name, oldest first, up to the first hook that raises. */
  function Installed(s: State, ofClass: set<string>, hooks: seq<Hook>, name: string): seq<nat> {
    if hooks == [] || GetAttr(s.dict, ofClass, hooks[0].name).None? || !hooks[0].works then []
    else (if hooks[0].name == name then [hooks[0].tag] else []) + Installed(s, ofClass, hooks[1..], name)
  }

  function Reversed(tags: seq<nat>): seq<nat> {
    if tags == [] then [] else Reversed(tags[1..]) + [tags[0]]
  }

  lemma {:induction false} InstalledDependsOnNames(s: State, t: State, ofClass: set<string>,
                                                   hooks: seq<Hook>, name: string)
    requires forall n :: GetAttr(s.dict, ofClass, n).Some? == GetAttr(t.dict, ofClass, n).Some?
    ensures Installed(s, ofClass, hooks, name) == Installed(t, ofClass, hooks, name)
  {
    if hooks != [] {
      InstalledDependsOnNames(s, t, ofClass, hooks[1..], name);
    }
  }

  lemma ReversedAppend(x: seq<nat>, a: seq<nat>)
    ensures Reversed(x + a) == Reversed(a) + Reversed(x)
  {
    if x == [] {
      assert x + a == a;
    } else {
      assert (x + a)[1..] == x[1..] + a;
    }
  }

  lemma InstallOneWraps(s: State, ofClass: set<string>, h: Hook, name: string)
    requires Hookable(s, ofClass, h)
    ensures
      var before, after := GetAttr(s.dict, ofClass, name), GetAttr(InstallOne(s, ofClass, h).dict, ofClass, name);
      && before.Some? == after.Some?
      && (before.Some? ==> after.value == if h.name == name then Wrapper(h.tag, before.value) else before.value)
  {
  }

  /** A call of a hooked method runs its wrappers newest first, down to what the
      name meant before; a method without hooks is as before. */
  lemma {:induction false} NewestFirst(s: State, ofClass: set<string>, hooks: seq<Hook>, name: string)
    ensures
      var before, after := GetAttr(s.dict, ofClass, name), GetAttr(InstallAll(s, ofClass, hooks).dict, ofClass, name);
      && before.Some? == after.Some?
      && (before.Some? ==>
            && Wrappers(after.value) == Reversed(Installed(s, ofClass, hooks, name)) + Wrappers(before.value)
            && Root(after.value) == Root(before.value))
    decreases hooks
  {
    hide GetAttr, InstallOne, Reversed;
    assert Reversed([]) == [] by { EmptyReversed(); }
    if hooks != [] {
      if Hookable(s, ofClass, hooks[0]) {
        var t := InstallOne(s, ofClass, hooks[0]);
        forall n
          ensures GetAttr(s.dict, ofClass, n).Some? == GetAttr(t.dict, ofClass, n).Some?
        {
          InstallOneWraps(s, ofClass, hooks[0], n);
        }
        InstallOneWraps(s, ofClass, hooks[0], name);
        NewestFirst(t, ofClass, hooks[1..], name);
        InstalledDependsOnNames(s, t, ofClass, hooks[1..], name);
        var mine := if hooks[0].name == name then [hooks[0].tag] else [];
        ReversedAppend(mine, Installed(s, ofClass, hooks[1..], name));
        ReversedOne(hooks[0].tag);
      } else {
        RaisingKeepsDict(s, ofClass, hooks[0]);
      }
    }
  }

  /** The tags hooked on a name by these calls, oldest first. */
  function AllInstalled(s: State, ofClass: set<string>, calls: seq<seq<Hook>>, name: string): seq<nat> {
    if calls == [] then []
    else
      var before := calls[..|calls| - 1];
      AllInstalled(s, ofClass, before, name)
      + Installed(InstallCalls(s, ofClass, before), ofClass, Last(calls), name)
  }

  /** After any install calls, with any overlapping names, a call of a hooked method
      runs the wrappers newest first, down to what the name meant before all of them. */
  lemma {:induction false} NewestFirstOverCalls(s: State, ofClass: set<string>, calls: seq<seq<Hook>>, name: string)
    ensures
      var before, after := GetAttr(s.dict, ofClass, name), GetAttr(InstallCalls(s, ofClass, calls).dict, ofClass, name);
      && before.Some? == after.Some?
      && (before.Some? ==>
            && Wrappers(after.value) == Reversed(AllInstalled(s, ofClass, calls, name)) + Wrappers(before.value)
            && Root(after.value) == Root(before.value))
  {
    hide GetAttr, InstallAll, Installed, Reversed;
    assert Reversed([]) == [] by { EmptyReversed(); }
    if calls != [] {
      var rest := calls[..|calls| - 1];
      var t := InstallCalls(s, ofClass, rest);
      var older, newer := AllInstalled(s, ofClass, rest, name), Installed(t, ofClass, Last(calls), name);
      NewestFirstOverCalls(s, ofClass, rest, name);
      NewestFirst(t, ofClass, Last(calls), name);
      ReversedAppend(older, newer);
      if GetAttr(s.dict, ofClass, name).Some? {
        Associates(Reversed(newer), Reversed(older), Wrappers(GetAttr(s.dict, ofClass, name).value));
      }
    }
  }

  lemma EmptyReversed()
    ensures Reversed([]) == []
  {
  }

  lemma ReversedOne(tag: nat)
    ensures Reversed([tag]) == [tag]
  {
  }

  lemma RaisingKeepsDict(s: State, ofClass: set<string>, h: Hook)
    requires !Hookable(s, ofClass, h)
    ensures InstallOne(s, ofClass, h).dict == s.dict
  {
  }
}
