/**
 * The scope-exit helper `Finally` (include/Finally.hpp): a move-only token
 * that owns a function through a `unique_ptr` and calls it when it is
 * destroyed, if it still owns it.
 *
 * The class models one token.  Calling the function is something the
 * caller does with what `Destroy` hands back; the ghost counter
 * `invocations` records how often this token has called its function.
 * The datatype `World` below models every token of a program at once, to
 * state what holds across any sequence of moves.
 */
module Finalizer {
  import opened Wrappers

  class Finally<F> {
    /** The owned function; `None` is the empty `unique_ptr`. */
    var action: Option<F>
    /** How many times this token has called its function. */
    ghost var invocations: nat
    /** The token has been constructed and not yet destroyed. */
    ghost var alive: bool

    /** `Finally(const Function&)`: owns a copy of `f`. */
    constructor (f: F)
      ensures action == Some(f) && invocations == 0 && alive
    {
      action := Some(f);
      invocations := 0;
      alive := true;
    }

    /** The move constructor `Finally(Finally&&)`: takes over the pending
        function of `other`, which is left owning nothing. */
    constructor Move(other: Finally<F>)
      requires other.alive
      modifies other
      ensures action == old(other.action) && invocations == 0 && alive
      ensures other.action == None && other.alive
      ensures other.invocations == old(other.invocations)
    {
      action := other.action;
      invocations := 0;
      alive := true;
      new;
      other.action := None;
    }

    /** The move assignment `operator=(Finally&&)`: the function of `other`
        replaces this token's own, which is dropped WITHOUT being called;
        `other` is left owning nothing.  Moving a token onto itself keeps
        its function, as `unique_ptr`'s self-move-assignment does. */
    method MoveAssign(other: Finally<F>)
      requires alive && other.alive
      modifies this, other
      ensures other != this ==> action == old(other.action) && other.action == None
      ensures other == this ==> action == old(action)
      ensures alive && other.alive
      ensures invocations == old(invocations) && other.invocations == old(other.invocations)
    {
      if other != this {
        action := other.action;
        other.action := None;
      }
    }

    /** The destructor: hands back the function to call, if the token still
        owns one, and counts that call. */
    method Destroy() returns (fired: Option<F>)
      requires alive
      modifies this
      ensures fired == old(action) && !alive
      ensures invocations == old(invocations) + (if fired.Some? then 1 else 0)
    {
      fired := action;
      if action.Some? {
        invocations := invocations + 1;
      }
      alive := false;
    }
  }

  /** `finally(f)`: a fresh token owning `f`. */
  method MakeFinally<F>(f: F) returns (r: Finally<F>)
    ensures fresh(r) && r.action == Some(f) && r.invocations == 0 && r.alive
  {
    r := new Finally(f);
  }

  // ---------------------------------------------------------------------
  // Every token of a program at once.  Functions handed to `finally` are
  // numbered in creation order; a token is named by a number too.

  /** `tokens` maps each live token to the function it owns; `made` counts
      the calls of `finally`; `called` lists the functions called by
      destructors and `dropped` those discarded by a move assignment. */
  datatype World = World(tokens: map<nat, Option<nat>>, made: nat, called: seq<nat>, dropped: seq<nat>)

  /** What a program can do with tokens.  There is no copy: the copy
      constructor and copy assignment are deleted. */
  datatype Event =
    | Create(token: nat)                 // finally(f), stored in a new token
    | MoveConstruct(token: nat, from: nat)
    | MoveAssign(token: nat, from: nat)
    | Destruct(token: nat)

  const Start := World(map[], 0, [], [])

  function Held(p: Option<nat>): seq<nat>
  {
    if p.Some? then [p.value] else []
  }

  /** `finally(f)` stored in the new token `t`. */
  function Created(w: World, t: nat): (r: World)
    ensures r.tokens.Keys == w.tokens.Keys + {t}
    ensures t in r.tokens && r.tokens[t] == Some(w.made) && r.made == w.made + 1
    ensures forall u :: u in w.tokens && u != t ==> u in r.tokens && r.tokens[u] == w.tokens[u]
    ensures r.called == w.called && r.dropped == w.dropped
    ensures Ledger(w) ==> w.made !in r.called && w.made !in r.dropped
  {
    w.(tokens := w.tokens[t := Some(w.made)], made := w.made + 1)
  }

  /** Token `t` takes the function of token `f`, which keeps nothing. */
  function Transferred(tokens: map<nat, Option<nat>>, t: nat, f: nat): map<nat, Option<nat>>
    requires f in tokens
  {
    tokens[t := tokens[f]][f := None]
  }

  /** The move constructor: the new token `t` takes over from `f`. */
  function MovedInto(w: World, t: nat, f: nat): (r: World)
    requires f in w.tokens && t != f
    ensures r.tokens.Keys == w.tokens.Keys + {t}
    ensures r.tokens[t] == w.tokens[f] && r.tokens[f] == None
    ensures forall u :: u in w.tokens && u != t && u != f ==> r.tokens[u] == w.tokens[u]
    ensures r.made == w.made && r.called == w.called && r.dropped == w.dropped
  {
    w.(tokens := Transferred(w.tokens, t, f))
  }

  /** The move assignment `t = std::move(f)` for distinct tokens: the function
      `t` owned is dropped without being called. */
  function Reassigned(w: World, t: nat, f: nat): (r: World)
    requires t in w.tokens && f in w.tokens && t != f
    ensures r.tokens.Keys == w.tokens.Keys
    ensures r.tokens[t] == w.tokens[f] && r.tokens[f] == None
    ensures forall u :: u in w.tokens && u != t && u != f ==> r.tokens[u] == w.tokens[u]
    ensures r.made == w.made && r.called == w.called
    ensures w.tokens[t].Some? ==> r.dropped == w.dropped + [w.tokens[t].value]
    ensures w.tokens[t].None? ==> r.dropped == w.dropped
  {
    w.(tokens := Transferred(w.tokens, t, f), dropped := w.dropped + Held(w.tokens[t]))
  }

  /** The destructor of token `t`: its function, if any, is called. */
  function Destructed(w: World, t: nat): (r: World)
    requires t in w.tokens
    ensures r.tokens.Keys == w.tokens.Keys - {t}
    ensures forall u :: u in r.tokens ==> r.tokens[u] == w.tokens[u]
    ensures r.made == w.made && r.dropped == w.dropped
    ensures w.tokens[t].Some? ==> r.called == w.called + [w.tokens[t].value]
    ensures w.tokens[t].None? ==> r.called == w.called
  {
    w.(tokens := w.tokens - {t}, called := w.called + Held(w.tokens[t]))
  }

  /** The world after `e`, or `None` when `e` names a token that does not
      exist (or, for a construction, one that already does). */
  function Apply(w: World, e: Event): (r: Option<World>)
    ensures r.Some? <==> match e
                         case Create(t) => t !in w.tokens
                         case MoveConstruct(t, f) => t !in w.tokens && f in w.tokens
                         case MoveAssign(t, f) => t in w.tokens && f in w.tokens
                         case Destruct(t) => t in w.tokens
    ensures r.Some? ==> r.value.made >= w.made && w.called <= r.value.called && w.dropped <= r.value.dropped
  {
    match e
    case Create(t) => if t in w.tokens then None else Some(Created(w, t))
    case MoveConstruct(t, f) => if t in w.tokens || f !in w.tokens then None else Some(MovedInto(w, t, f))
    case MoveAssign(t, f) =>
      if t !in w.tokens || f !in w.tokens then None
      else if t == f then Some(w)
      else Some(Reassigned(w, t, f))
    case Destruct(t) => if t !in w.tokens then None else Some(Destructed(w, t))
  }

  /** The world after all of `events`, or `None` if one of them is not possible. */
  function Run(w: World, events: seq<Event>): Option<World>
    decreases events
  {
    if events == [] then Some(w)
    else match Apply(w, events[0])
      case None => None
      case Some(next) => Run(next, events[1..])
  }

  predicate NoDuplicates(s: seq<nat>)
  {
    forall i, j :: 0 <= i < j < |s| ==> s[i] != s[j]
  }

  ghost predicate Pending(w: World, a: nat)
  {
    exists t :: t in w.tokens && w.tokens[t] == Some(a)
  }

  /** An owned function has been made and is neither called nor dropped. */
  ghost predicate OwnedUnused(w: World)
  {
    forall t :: t in w.tokens && w.tokens[t].Some? ==>
      w.tokens[t].value < w.made && w.tokens[t].value !in w.called && w.tokens[t].value !in w.dropped
  }

  /** No two live tokens own the same function. */
  ghost predicate OwnedOnce(w: World)
  {
    forall t, u :: t in w.tokens && u in w.tokens && t != u && w.tokens[t].Some? && w.tokens[u].Some? ==>
      w.tokens[t].value != w.tokens[u].value
  }

  /** Called and dropped functions are distinct, made, and never both. */
  ghost predicate Ledger(w: World)
  {
    && NoDuplicates(w.called) && NoDuplicates(w.dropped)
    && (forall a :: a in w.called ==> a < w.made && a !in w.dropped)
    && (forall a :: a in w.dropped ==> a < w.made)
  }

  /** Nothing made is lost: it is called, dropped or still owned. */
  ghost predicate Accounted(w: World)
  {
    forall a: nat :: a < w.made ==> a in w.called || a in w.dropped || Pending(w, a)
  }

  /** Every function handed to `finally` is, at any time, in exactly one
      place: owned by exactly one live token, called once, or dropped once. */
  ghost predicate Inv(w: World)
  {
    OwnedUnused(w) && OwnedOnce(w) && Ledger(w) && Accounted(w)
  }

  lemma AppendHeld(s: seq<nat>, p: Option<nat>)
    requires NoDuplicates(s) && (p.Some? ==> p.value !in s)
    ensures NoDuplicates(s + Held(p))
    ensures forall a :: a in s + Held(p) <==> a in s || (p.Some? && a == p.value)
  {
  }

  lemma CreateKeepsInv(w: World, t: nat)
    requires Inv(w) && t !in w.tokens
    ensures Inv(Created(w, t))
  {
    var w' := Created(w, t);
    forall a: nat | a < w'.made
      ensures a in w'.called || a in w'.dropped || Pending(w', a)
    {
      if a == w.made {
        assert w'.tokens[t] == Some(a);
      } else if Pending(w, a) {
        var u :| u in w.tokens && w.tokens[u] == Some(a);
        assert w'.tokens[u] == Some(a);
      }
    }
  }

  /** After a transfer every owned function was owned before, by `f` if the
      owner is `t`; and `t` and `f` are the only tokens whose function changed. */
  lemma TransferredOwners(tokens: map<nat, Option<nat>>, t: nat, f: nat)
    requires f in tokens && t != f
    ensures var r := Transferred(tokens, t, f);
            && r.Keys == tokens.Keys + {t}
            && r[t] == tokens[f] && r[f] == None
            && forall u :: u in r && u != t && u != f ==> r[u] == tokens[u]
  {
  }

  /** A transfer to a token that owned nothing else keeps owned functions
      unused and owned once, and loses none of them. */
  lemma TransferKeepsOwnership(w: World, t: nat, f: nat, w': World)
    requires Inv(w) && f in w.tokens && t != f
    requires w'.tokens == Transferred(w.tokens, t, f) && w'.made == w.made && w'.called == w.called
    requires forall a :: a in w.dropped ==> a in w'.dropped
    requires t in w.tokens && w.tokens[t].Some? ==> w'.dropped == w.dropped + [w.tokens[t].value]
    requires !(t in w.tokens && w.tokens[t].Some?) ==> w'.dropped == w.dropped
    ensures OwnedUnused(w') && OwnedOnce(w') && Accounted(w')
  {
    TransferredOwners(w.tokens, t, f);
    forall u | u in w'.tokens && w'.tokens[u].Some?
      ensures w'.tokens[u].value < w'.made && w'.tokens[u].value !in w'.called && w'.tokens[u].value !in w'.dropped
    {
      var o := if u == t then f else u;
      assert w'.tokens[u] == w.tokens[o];
      if t in w.tokens && w.tokens[t].Some? {
        assert o != t;
        assert w'.tokens[u].value != w.tokens[t].value;
      }
    }
    forall u, v | u in w'.tokens && v in w'.tokens && u != v && w'.tokens[u].Some? && w'.tokens[v].Some?
      ensures w'.tokens[u].value != w'.tokens[v].value
    {
      var ou := if u == t then f else u;
      var ov := if v == t then f else v;
      assert w'.tokens[u] == w.tokens[ou] && w'.tokens[v] == w.tokens[ov];
    }
    forall a: nat | a < w'.made
      ensures a in w'.called || a in w'.dropped || Pending(w', a)
    {
      if Pending(w, a) {
        var u :| u in w.tokens && w.tokens[u] == Some(a);
        if u == f {
          assert w'.tokens[t] == Some(a);
        } else if u != t {
          assert w'.tokens[u] == Some(a);
        }
      }
    }
  }

  lemma MoveConstructKeepsInv(w: World, t: nat, f: nat)
    requires Inv(w) && t !in w.tokens && f in w.tokens
    ensures Inv(MovedInto(w, t, f))
  {
    TransferKeepsOwnership(w, t, f, MovedInto(w, t, f));
  }

  lemma MoveAssignKeepsInv(w: World, t: nat, f: nat)
    requires Inv(w) && t in w.tokens && f in w.tokens && t != f
    ensures Inv(Reassigned(w, t, f))
  {
    AppendHeld(w.dropped, w.tokens[t]);
    TransferKeepsOwnership(w, t, f, Reassigned(w, t, f));
  }

  lemma DestructKeepsInv(w: World, t: nat)
    requires Inv(w) && t in w.tokens
    ensures Inv(Destructed(w, t))
  {
    var w' := Destructed(w, t);
    AppendHeld(w.called, w.tokens[t]);
    forall a: nat | a < w'.made
      ensures a in w'.called || a in w'.dropped || Pending(w', a)
    {
      if Pending(w, a) {
        var u :| u in w.tokens && w.tokens[u] == Some(a);
        if u != t {
          assert w'.tokens[u] == Some(a);
        }
      }
    }
  }

  /** Every possible event keeps the invariant. */
  lemma ApplyKeepsInv(w: World, e: Event)
    requires Inv(w) && Apply(w, e).Some?
    ensures Inv(Apply(w, e).value)
  {
    match e
    case Create(t) => CreateKeepsInv(w, t);
    case MoveConstruct(t, f) => MoveConstructKeepsInv(w, t, f);
    case MoveAssign(t, f) => if t != f { MoveAssignKeepsInv(w, t, f); }
    case Destruct(t) => DestructKeepsInv(w, t);
  }

  lemma {:induction false} RunKeepsInv(w: World, events: seq<Event>)
    requires Inv(w) && Run(w, events).Some?
    ensures Inv(Run(w, events).value)
    decreases events
  {
    if events != [] {
      ApplyKeepsInv(w, events[0]);
      RunKeepsInv(Apply(w, events[0]).value, events[1..]);
    }
  }

  /** Whatever moves a program makes, no function handed to `finally` is
      ever called twice, and no function is both called and dropped. */
  lemma AtMostOnce(events: seq<Event>)
    requires Run(Start, events).Some?
    ensures var w := Run(Start, events).value;
            NoDuplicates(w.called) && forall a :: a in w.called ==> a !in w.dropped
  {
    RunKeepsInv(Start, events);
  }

  /** Once no token is left, every function handed to `finally` has been
      called exactly once, unless a move assignment dropped it. */
  lemma CalledUnlessDropped(events: seq<Event>, a: nat)
    requires Run(Start, events).Some?
    requires Run(Start, events).value.tokens == map[]
    requires a < Run(Start, events).value.made
    requires a !in Run(Start, events).value.dropped
    ensures a in Run(Start, events).value.called
  {
    RunKeepsInv(Start, events);
  }
}
