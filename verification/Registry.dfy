/** The proxy's registry: which connection has logged in under which name. */
module Registry {
  import opened Common

  type ConnId = nat

  /** A connection between accept and the return of its id.  `Del` reads the name under the
      lock and erases both entries under the lock again. */
  datatype Phase =
    | Fresh
    | LoggedIn(name: string)
    | Looked(login: Option<string>, found: string)
    | Erased(login: Option<string>)

  datatype Conn = Conn(id: ConnId, phase: Phase)

  /** The two maps of the connection manager, the ids handed out, and the connections that
      have not returned their id yet.  Connections are named by numbers never used twice. */
  datatype State = State(names: map<ConnId, string>, conns: map<string, nat>, held: set<ConnId>, live: map<nat, Conn>, used: nat)

  const Start: State := State(map[], map[], {}, map[], 0)

  datatype Step =
    | Accept(id: ConnId)
    | Login(c: nat, name: string)
    | DelLookup(c: nat)
    | DelErase(c: nat)
    | Release(c: nat)

  /** `GetName`. */
  function GetName(names: map<ConnId, string>, id: ConnId): string { if id in names then names[id] else "" }

  function LoginOf(p: Phase): Option<string> {
    match p
    case Fresh => None
    case LoggedIn(n) => Some(n)
    case Looked(l, _) => l
    case Erased(_) => None
  }

  /** Nobody who is still there has logged in under the name. */
  predicate NameFree(s: State, name: string) {
    forall c :: c in s.live ==> LoginOf(s.live[c].phase) != Some(name)
  }

  /** Each connection logs in at most once, under a name that no live connection has, and
      nothing is handled for it after the disconnect report. */
  predicate Enabled(s: State, step: Step) {
    match step
    case Accept(id) => id !in s.held
    case Login(c, name) => c in s.live && s.live[c].phase.Fresh? && NameFree(s, name)
    case DelLookup(c) => c in s.live && (s.live[c].phase.Fresh? || s.live[c].phase.LoggedIn?)
    case DelErase(c) => c in s.live && s.live[c].phase.Looked?
    case Release(c) => c in s.live && s.live[c].phase.Erased?
  }

  function SetPhase(s: State, c: nat, p: Phase): State
    requires c in s.live
  {
    s.(live := s.live[c := s.live[c].(phase := p)])
  }

  function Next(s: State, step: Step): State
    requires Enabled(s, step)
  {
    match step
    case Accept(id) => s.(held := s.held + {id}, live := s.live[s.used := Conn(id, Fresh)], used := s.used + 1)
    case Login(c, name) =>
      SetPhase(s, c, LoggedIn(name)).(conns := s.conns[name := c], names := s.names[s.live[c].id := name])
    case DelLookup(c) => SetPhase(s, c, Looked(LoginOf(s.live[c].phase), GetName(s.names, s.live[c].id)))
    case DelErase(c) =>
      var k := s.live[c];
      var t := SetPhase(s, c, Erased(k.phase.login));
      if k.phase.found == "" then t else t.(names := s.names - {k.id}, conns := s.conns - {k.phase.found})
    case Release(c) => s.(held := s.held - {s.live[c].id}, live := s.live - {c})
  }

  ghost predicate Runs(steps: seq<Step>, states: seq<State>) {
    && |states| == |steps| + 1 && states[0] == Start
    && forall i :: 0 <= i < |steps| ==> Enabled(states[i], steps[i]) && states[i + 1] == Next(states[i], steps[i])
  }

  // ----- consistency -----

  /** For names that are not empty the two maps are inverse to each other, and speak only of
      connections that are still there. */
  ghost predicate Consistent(s: State) {
    && (forall i :: i in s.names && s.names[i] != "" ==>
          i in s.held && s.names[i] in s.conns && s.conns[s.names[i]] in s.live && s.live[s.conns[s.names[i]]].id == i)
    && (forall n :: n in s.conns && n != "" ==>
          s.conns[n] in s.live && s.live[s.conns[n]].id in s.names && s.names[s.live[s.conns[n]].id] == n)
  }

  /** The entry of a connection is there exactly from its login to its deletion; the empty name
      counts as no entry, but stays in the map. */
  ghost predicate Entry(s: State, k: Conn) {
    && (match LoginOf(k.phase) case Some(n) => k.id in s.names && s.names[k.id] == n case None => GetName(s.names, k.id) == "")
    && (k.phase.Looked? ==> k.phase.found == GetName(s.names, k.id))
  }

  ghost predicate Entered(s: State) {
    && (forall c :: c in s.live ==> Entry(s, s.live[c]))
    && (forall c :: c in s.live && LoginOf(s.live[c].phase).Some? && LoginOf(s.live[c].phase).value != "" ==>
          LoginOf(s.live[c].phase).value in s.conns && s.conns[LoginOf(s.live[c].phase).value] == c)
  }

  ghost predicate Ids(s: State) {
    && (forall c :: c in s.live ==> c < s.used && s.live[c].id in s.held)
    && (forall c, d :: c in s.live && d in s.live && c != d ==> s.live[c].id != s.live[d].id)
  }

  ghost predicate Inv(s: State) { Consistent(s) && Entered(s) && Ids(s) }

  // ----- every step keeps it -----

  lemma AcceptInv(s: State, id: ConnId)
    requires Inv(s) && id !in s.held
    ensures Inv(Next(s, Accept(id)))
  {
    var t := Next(s, Accept(id));
    assert s.used !in s.live;
    forall c | c in t.live && c != s.used
      ensures t.live[c] == s.live[c] && c in s.live
    {
    }
  }

  /** A registered connection has logged in under its name. */
  lemma ConnsNamed(s: State)
    requires Inv(s)
    ensures forall n :: n in s.conns && n != "" ==> s.conns[n] in s.live && LoginOf(s.live[s.conns[n]].phase) == Some(n)
  {
    forall n | n in s.conns && n != ""
      ensures LoginOf(s.live[s.conns[n]].phase) == Some(n)
    {
      assert Entry(s, s.live[s.conns[n]]);
    }
  }

  /** Only the phase of `c` changes. */
  ghost predicate PhaseOnly(s: State, t: State, c: nat) {
    && c in s.live && t.held == s.held && t.used == s.used && t.live.Keys == s.live.Keys
    && t.live[c].id == s.live[c].id && forall d :: d in s.live && d != c ==> t.live[d] == s.live[d]
  }

  lemma PhaseIds(s: State, t: State, c: nat)
    requires Ids(s) && PhaseOnly(s, t, c)
    ensures Ids(t) && forall d :: d in s.live && d != c ==> s.live[d].id != s.live[c].id
  {
  }

  lemma LoginInv(s: State, c: nat, name: string)
    requires Inv(s) && Enabled(s, Login(c, name))
    ensures Inv(Next(s, Login(c, name)))
  {
    var t := Next(s, Login(c, name));
    ConnsNamed(s);
    assert name != "" ==> name !in s.conns;
    assert Entry(s, s.live[c]);
    PhaseIds(s, t, c);
    LoginConsistent(s, t, c, name);
    LoginEntered(s, t, c, name);
  }

  lemma LoginConsistent(s: State, t: State, c: nat, name: string)
    requires Consistent(s) && Ids(s) && c in s.live && (name != "" ==> name !in s.conns) && GetName(s.names, s.live[c].id) == ""
    requires Enabled(s, Login(c, name)) && t == Next(s, Login(c, name))
    ensures Consistent(t)
  {
    hide NameFree;
  }

  lemma LoginEntered(s: State, t: State, c: nat, name: string)
    requires Entered(s) && Enabled(s, Login(c, name)) && t == Next(s, Login(c, name))
    requires forall d :: d in s.live && d != c ==> s.live[d].id != s.live[c].id
    ensures Entered(t)
  {
    forall d | d in t.live
      ensures Entry(t, t.live[d])
    {
      assert Entry(s, s.live[d]);
    }
  }

  lemma LookupInv(s: State, c: nat)
    requires Inv(s) && Enabled(s, DelLookup(c))
    ensures Inv(Next(s, DelLookup(c)))
  {
    hide Ids;
    var t := Next(s, DelLookup(c));
    PhaseIds(s, t, c);
    assert forall d :: d in s.live ==> t.live[d].id == s.live[d].id && LoginOf(t.live[d].phase) == LoginOf(s.live[d].phase);
    forall d | d in t.live
      ensures Entry(t, t.live[d])
    {
      assert Entry(s, s.live[d]);
    }
  }

  lemma EraseInv(s: State, c: nat)
    requires Inv(s) && Enabled(s, DelErase(c))
    ensures Inv(Next(s, DelErase(c)))
  {
    hide Consistent, Entered, Ids;
    var t, k := Next(s, DelErase(c)), s.live[c];
    EntryOf(s, c);
    PhaseIds(s, t, c);
    if k.phase.found == "" {
      KeptConsistent(s, t, c);
    } else {
      ErasedConsistent(s, t, c, k.phase.found);
    }
    ErasedEntered(s, t, c);
  }

  lemma EntryOf(s: State, c: nat)
    requires Inv(s) && c in s.live
    ensures Entry(s, s.live[c])
    ensures GetName(s.names, s.live[c].id) != "" ==>
      var n := s.names[s.live[c].id]; n in s.conns && s.conns[n] == c && LoginOf(s.live[c].phase) == Some(n)
  {
  }

  lemma KeptConsistent(s: State, t: State, c: nat)
    requires Consistent(s) && PhaseOnly(s, t, c) && t.names == s.names && t.conns == s.conns
    ensures Consistent(t)
  {
  }

  lemma ErasedConsistent(s: State, t: State, c: nat, n: string)
    requires Consistent(s) && PhaseOnly(s, t, c) && n != "" && n in s.conns && s.conns[n] == c
    requires s.live[c].id in s.names && s.names[s.live[c].id] == n
    requires t.names == s.names - {s.live[c].id} && t.conns == s.conns - {n}
    ensures Consistent(t)
  {
  }

  lemma ErasedEntered(s: State, t: State, c: nat)
    requires Entered(s) && Ids(s) && Enabled(s, DelErase(c)) && t == Next(s, DelErase(c))
    requires s.live[c].phase.found == GetName(s.names, s.live[c].id)
    requires s.live[c].phase.found != "" ==> s.live[c].phase.found in s.conns && s.conns[s.live[c].phase.found] == c
    ensures Entered(t)
  {
    forall d | d in t.live
      ensures Entry(t, t.live[d])
    {
      assert Entry(s, s.live[d]);
    }
  }

  lemma ReleaseInv(s: State, c: nat)
    requires Inv(s) && Enabled(s, Release(c))
    ensures Inv(Next(s, Release(c)))
  {
    var t, k := Next(s, Release(c)), s.live[c];
    EntryOf(s, c);
    forall d | d in t.live
      ensures t.live[d] == s.live[d] && s.live[d].id != k.id && Entry(t, t.live[d])
    {
      assert Entry(s, s.live[d]);
    }
  }

  lemma StepInv(s: State, step: Step)
    requires Inv(s) && Enabled(s, step)
    ensures Inv(Next(s, step))
  {
    match step
    case Accept(id) => AcceptInv(s, id);
    case Login(c, name) => LoginInv(s, c, name);
    case DelLookup(c) => LookupInv(s, c);
    case DelErase(c) => EraseInv(s, c);
    case Release(c) => ReleaseInv(s, c);
  }

  /** In every run the two maps are inverse to each other as far as names are not empty. */
  lemma {:induction false} RegistryConsistent(steps: seq<Step>, states: seq<State>, n: nat)
    requires Runs(steps, states) && n <= |steps|
    ensures Inv(states[n])
  {
    if n > 0 {
      RegistryConsistent(steps, states, n - 1);
      assert Enabled(states[n - 1], steps[n - 1]);
      StepInv(states[n - 1], steps[n - 1]);
    }
  }

  // ----- entries of ids that are not handed out -----

  /** The name of the last login of an id during the first `n` steps. */
  ghost function LastLogin(steps: seq<Step>, states: seq<State>, n: nat, id: ConnId): Option<string>
    requires Runs(steps, states) && n <= |steps|
  {
    if n == 0 then None
    else
      assert Enabled(states[n - 1], steps[n - 1]);
      if steps[n - 1].Login? && states[n - 1].live[steps[n - 1].c].id == id then Some(steps[n - 1].name)
      else LastLogin(steps, states, n - 1, id)
  }

  /** An id that nobody holds has an entry exactly if its last login was under the empty name:
      that name also stands for "not logged in", so its entry is not erased.  It stays until the
      id is handed out again and logs in under another name. */
  lemma StaleExactly(steps: seq<Step>, states: seq<State>, n: nat, id: ConnId)
    requires Runs(steps, states) && n <= |steps| && id !in states[n].held
    ensures id in states[n].names <==> LastLogin(steps, states, n, id) == Some("")
    ensures id in states[n].names ==> states[n].names[id] == ""
  {
    LoginStays(steps, states, n, id);
    RegistryConsistent(steps, states, n);
  }

  /** The entry of an id is that of its last login, or it is gone and was not empty. */
  lemma {:induction false} LoginStays(steps: seq<Step>, states: seq<State>, n: nat, id: ConnId)
    requires Runs(steps, states) && n <= |steps|
    ensures var l := LastLogin(steps, states, n, id); var names := states[n].names;
      if id in names then l == Some(names[id]) else l != Some("")
  {
    if n > 0 {
      var s, step := states[n - 1], steps[n - 1];
      assert Enabled(s, step) && states[n] == Next(s, step);
      LoginStays(steps, states, n - 1, id);
      RegistryConsistent(steps, states, n - 1);
      if step.DelErase? && s.live[step.c].id == id {
        EntryOf(s, step.c);
      }
    }
  }

  /** If nobody logs in under the empty name, then the maps are inverse to each other
      altogether, and an id is handed out again only after its entry is gone. */
  lemma NamedRuns(steps: seq<Step>, states: seq<State>, n: nat)
    requires Runs(steps, states) && n <= |steps| && forall i :: 0 <= i < |steps| && steps[i].Login? ==> steps[i].name != ""
    ensures "" !in states[n].conns && forall id :: id in states[n].names ==> id in states[n].held && states[n].names[id] != ""
  {
    RegistryConsistent(steps, states, n);
    NoEmptyName(steps, states, n);
  }

  lemma {:induction false} NoEmptyName(steps: seq<Step>, states: seq<State>, n: nat)
    requires Runs(steps, states) && n <= |steps| && forall i :: 0 <= i < |steps| && steps[i].Login? ==> steps[i].name != ""
    ensures "" !in states[n].conns && forall id :: id in states[n].names ==> states[n].names[id] != ""
  {
    if n > 0 {
      NoEmptyName(steps, states, n - 1);
      assert Enabled(states[n - 1], steps[n - 1]) && states[n] == Next(states[n - 1], steps[n - 1]);
    }
  }

  /** A run that leaves an entry behind: a login under the empty name, and the disconnect. */
  lemma EmptyNameStays() returns (states: seq<State>)
    ensures var steps := [Accept(5), Login(0, ""), DelLookup(0), DelErase(0), Release(0)];
      Runs(steps, states) && 5 !in states[5].held && 5 in states[5].names
  {
    var s1 := Next(Start, Accept(5));
    var s2 := Next(s1, Login(0, ""));
    var s3 := Next(s2, DelLookup(0));
    var s4 := Next(s3, DelErase(0));
    states := [Start, s1, s2, s3, s4, Next(s4, Release(0))];
  }

  // ----- the connection manager as an object -----

  class ConnMgr {
    var names: map<ConnId, string>
    var conns: map<string, nat>

    constructor ()
      ensures Mirrors(Start)
    {
      names, conns := map[], map[];
    }

    /** The two maps of a state. */
    ghost predicate Mirrors(s: State)
      reads this
    {
      names == s.names && conns == s.conns
    }

    /** The login step.  A name that is taken passes to the new connection. */
    method Add(name: string, c: nat, id: ConnId, ghost s: State)
      requires Mirrors(s)
      modifies this
      ensures conns == old(conns)[name := c] && names == old(names)[id := name]
      ensures Enabled(s, Login(c, name)) && s.live[c].id == id ==> Mirrors(Next(s, Login(c, name)))
    {
      conns := conns[name := c];
      names := names[id := name];
    }

    method NameOf(id: ConnId) returns (name: string)
      ensures name == GetName(names, id)
    {
      if id !in names {
        return "";
      }
      return names[id];
    }

    /** Finds exactly the connection that has logged in under the name and is still there. */
    method ConnOf(name: string, ghost s: State) returns (c: Option<nat>)
      requires Mirrors(s)
      ensures c.Some? <==> name in conns
      ensures c.Some? ==> c.value == conns[name]
      ensures Inv(s) && name != "" ==> forall d :: c == Some(d) <==> d in s.live && LoginOf(s.live[d].phase) == Some(name)
    {
      if Inv(s) && name != "" {
        ConnsNamed(s);
      }
      if name !in conns {
        return None;
      }
      return Some(conns[name]);
    }

    /** The second locked part of `Del`: the step that erases, whatever happened to other
        connections since the lookup. */
    method EraseEntries(id: ConnId, name: string, ghost s: State)
      requires Mirrors(s)
      modifies this
      ensures names == (if name == "" then old(names) else old(names) - {id})
      ensures conns == (if name == "" then old(conns) else old(conns) - {name})
      ensures forall c :: Enabled(s, DelErase(c)) && s.live[c].id == id && s.live[c].phase.found == name ==> Mirrors(Next(s, DelErase(c)))
    {
      if name != "" {
        names := names - {id};
        conns := conns - {name};
      }
    }

    /** `Del`, when nothing happens between its two parts. */
    method Del(id: ConnId, ghost s: State)
      requires Mirrors(s)
      modifies this
      ensures var n := GetName(old(names), id);
        && names == (if n == "" then old(names) else old(names) - {id})
        && conns == (if n == "" then old(conns) else old(conns) - {n})
      ensures forall c :: Enabled(s, DelLookup(c)) && s.live[c].id == id ==> Mirrors(Next(Next(s, DelLookup(c)), DelErase(c)))
    {
      var name := NameOf(id);
      EraseEntries(id, name, s);
    }
  }
}
