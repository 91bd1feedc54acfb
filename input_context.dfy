/** Input contexts (walking, driving, flying, menu), their priorities and
    which of them may be active together, and the context stack that keeps
    the active contexts ordered by priority. */
module InputContexts {
  import opened Common

  datatype InputContext = Walking | Driving | Flying | Menu

  /** `priority`: higher means more specific. */
  function Priority(c: InputContext): (p: nat)
    ensures p <= 100
  {
    match c
    case Menu => 100
    case Flying => 50
    case Driving => 40
    case Walking => 10
  }

  /** Menu outranks Flying, which outranks Driving, which outranks Walking;
      so distinct contexts have distinct priorities. */
  lemma PriorityOrder(a: InputContext, b: InputContext)
    ensures Priority(Menu) > Priority(Flying) > Priority(Driving) > Priority(Walking)
    ensures Priority(a) == Priority(b) <==> a == b
  {
  }

  /** `allows_concurrent` */
  function AllowsConcurrent(c: InputContext, other: InputContext): bool
  {
    if c == Menu || other == Menu then false
    else if c == Walking || other == Walking then true
    else if (c == Driving && other == Flying) || (c == Flying && other == Driving) then false
    else c == other
  }

  /** Menu goes with nothing (not even itself), Walking goes with every other
      non-menu context, Driving and Flying exclude each other, and the
      relation is symmetric. */
  lemma ConcurrencyRules(a: InputContext, b: InputContext)
    ensures AllowsConcurrent(a, b) == AllowsConcurrent(b, a)
    ensures a == Menu ==> !AllowsConcurrent(a, b)
    ensures a == Walking && b != Menu ==> AllowsConcurrent(a, b)
    ensures !AllowsConcurrent(Driving, Flying)
    ensures AllowsConcurrent(a, b) <==> a != Menu && b != Menu && (a == Walking || b == Walking || a == b)
  {
  }

  /** Contexts ordered from the highest priority to the lowest. */
  ghost predicate PrioritySorted(cs: seq<InputContext>)
  {
    forall i, j :: 0 <= i < j < |cs| ==> Priority(cs[i]) >= Priority(cs[j])
  }

  /** Index of the first existing context that `c` may not run beside. */
  function FirstIncompatible(cs: seq<InputContext>, c: InputContext): (r: Option<nat>)
    ensures r.Some? ==>
              && r.value < |cs| && !AllowsConcurrent(c, cs[r.value])
              && forall k :: 0 <= k < r.value ==> AllowsConcurrent(c, cs[k])
    ensures r.None? <==> forall k :: 0 <= k < |cs| ==> AllowsConcurrent(c, cs[k])
  {
    if cs == [] then None
    else if !AllowsConcurrent(c, cs[0]) then Some(0)
    else match FirstIncompatible(cs[1..], c)
      case None => None
      case Some(k) => Some(k + 1)
  }

  /** Where `c` goes: before the first context of lower priority, otherwise
      at the end. */
  function InsertPos(cs: seq<InputContext>, c: InputContext): (pos: nat)
    ensures pos <= |cs|
    ensures forall k :: 0 <= k < pos ==> Priority(cs[k]) >= Priority(c)
    ensures pos < |cs| ==> Priority(cs[pos]) < Priority(c)
  {
    if cs == [] then 0
    else if Priority(cs[0]) < Priority(c) then 0
    else InsertPos(cs[1..], c) + 1
  }

  function InsertAt(cs: seq<InputContext>, pos: nat, c: InputContext): (r: seq<InputContext>)
    requires pos <= |cs|
    ensures |r| == |cs| + 1 && r[pos] == c
    ensures multiset(r) == multiset(cs) + multiset{c}
  {
    assert cs == cs[..pos] + cs[pos..];
    cs[..pos] + [c] + cs[pos..]
  }

  /** Inserting at `InsertPos` keeps the stack in priority order. */
  lemma InsertKeepsPriorityOrder(cs: seq<InputContext>, c: InputContext)
    requires PrioritySorted(cs)
    ensures PrioritySorted(InsertAt(cs, InsertPos(cs, c), c))
  {
    var pos := InsertPos(cs, c);
    var r := InsertAt(cs, pos, c);
    forall i, j | 0 <= i < j < |r| ensures Priority(r[i]) >= Priority(r[j]) {
      if j < pos {
        assert r[i] == cs[i] && r[j] == cs[j];
      } else if j == pos {
        assert r[i] == cs[i];
      } else if i < pos {
        assert r[i] == cs[i] && r[j] == cs[j - 1];
      } else if i == pos {
        assert r[j] == cs[j - 1] && Priority(cs[pos]) < Priority(c);
        assert Priority(cs[pos]) >= Priority(cs[j - 1]) || j - 1 == pos;
      } else {
        assert r[i] == cs[i - 1] && r[j] == cs[j - 1];
      }
    }
  }

  /** Index of the first occurrence of `c`. */
  function Find(cs: seq<InputContext>, c: InputContext): (r: Option<nat>)
    ensures r.Some? ==> r.value < |cs| && cs[r.value] == c && c !in cs[..r.value]
    ensures r.None? <==> c !in cs
  {
    if cs == [] then None
    else if cs[0] == c then Some(0)
    else match Find(cs[1..], c)
      case None => None
      case Some(k) =>
        assert cs[..k + 1] == [cs[0]] + cs[1..][..k];
        Some(k + 1)
  }

  /** Removing one element keeps the stack in priority order. */
  lemma RemoveKeepsPriorityOrder(cs: seq<InputContext>, pos: nat)
    requires pos < |cs| && PrioritySorted(cs)
    ensures PrioritySorted(cs[..pos] + cs[pos + 1..])
  {
    var r := cs[..pos] + cs[pos + 1..];
    forall i, j | 0 <= i < j < |r| ensures Priority(r[i]) >= Priority(r[j]) {
      var i' := if i < pos then i else i + 1;
      var j' := if j < pos then j else j + 1;
      assert r[i] == cs[i'] && r[j] == cs[j'];
    }
  }

  /** The outcome of `push_context`: `Err` names the existing context that
      refused the newcomer. */
  datatype PushResult = Pushed | Incompatible(existing: InputContext)

  /** `ContextStack`: the active contexts, highest priority first. */
  class ContextStack {
    var contexts: seq<InputContext>

    /** Never empty, and ordered by priority. */
    ghost predicate Valid()
      reads this
    {
      |contexts| >= 1 && PrioritySorted(contexts)
    }

    /** `ContextStack::default`: walking only. */
    constructor Default()
      ensures Valid() && contexts == [Walking]
    {
      contexts := [Walking];
    }

    /** `ContextStack::new` */
    constructor (primary: InputContext)
      ensures Valid() && contexts == [primary]
    {
      contexts := [primary];
    }

    /** `push_context`: refuse if some active context is incompatible,
        otherwise insert in priority order. */
    method PushContext(c: InputContext) returns (r: PushResult)
      modifies this
      ensures FirstIncompatible(old(contexts), c).Some? ==>
        r == Incompatible(old(contexts)[FirstIncompatible(old(contexts), c).value]) && contexts == old(contexts)
      ensures FirstIncompatible(old(contexts), c).None? ==>
        r == Pushed && contexts == InsertAt(old(contexts), InsertPos(old(contexts), c), c)
      ensures old(Valid()) ==> Valid()
    {
      var i := 0;
      while i < |contexts|
        invariant i <= |contexts|
        invariant forall k :: 0 <= k < i ==> AllowsConcurrent(c, contexts[k])
      {
        if !AllowsConcurrent(c, contexts[i]) {
          assert FirstIncompatible(contexts, c) == Some(i) by { FirstIncompatibleAt(contexts, c, i); }
          return Incompatible(contexts[i]);
        }
        i := i + 1;
      }
      var pos := 0;
      while pos < |contexts| && Priority(contexts[pos]) >= Priority(c)
        invariant pos <= |contexts|
        invariant forall k :: 0 <= k < pos ==> Priority(contexts[k]) >= Priority(c)
      {
        pos := pos + 1;
      }
      InsertPosAt(contexts, c, pos);
      if |contexts| >= 1 && PrioritySorted(contexts) {
        InsertKeepsPriorityOrder(contexts, c);
      }
      contexts := InsertAt(contexts, pos, c);
      r := Pushed;
    }

    /** `pop_context`: remove the first occurrence of `c`, falling back to
        walking when nothing is left; false when `c` is not active. */
    method PopContext(c: InputContext) returns (found: bool)
      modifies this
      ensures found <==> c in old(contexts)
      ensures !found ==> contexts == old(contexts)
      ensures found ==> var pos := Find(old(contexts), c).value;
        var rest := old(contexts)[..pos] + old(contexts)[pos + 1..];
        contexts == if rest == [] then [Walking] else rest
      ensures old(Valid()) ==> Valid()
    {
      var pos := 0;
      while pos < |contexts| && contexts[pos] != c
        invariant pos <= |contexts|
        invariant c !in contexts[..pos]
      {
        assert contexts[..pos + 1] == contexts[..pos] + [contexts[pos]];
        pos := pos + 1;
      }
      if pos == |contexts| {
        assert contexts[..pos] == contexts;
        return false;
      }
      FindAt(contexts, c, pos);
      if |contexts| >= 1 && PrioritySorted(contexts) {
        RemoveKeepsPriorityOrder(contexts, pos);
      }
      contexts := contexts[..pos] + contexts[pos + 1..];
      if contexts == [] {
        contexts := [Walking];
      }
      found := true;
    }

    /** `active_context`: the first context, walking if none. */
    function ActiveContext(): (a: InputContext)
      reads this
      ensures |contexts| > 0 ==> a == contexts[0]
      ensures Valid() ==> forall k :: 0 <= k < |contexts| ==> Priority(contexts[k]) <= Priority(a)
    {
      if |contexts| > 0 then contexts[0] else Walking
    }

    /** `has_context`: the active context is always held, and in an
        ordered stack no held context outranks the active one. */
    function HasContext(c: InputContext): (b: bool)
      reads this
      ensures |contexts| > 0 && c == ActiveContext() ==> b
      ensures Valid() && b ==> Priority(c) <= Priority(ActiveContext())
    {
      c in contexts
    }

    /** `set_context`: exactly the given context. */
    method SetContext(c: InputContext)
      modifies this
      ensures contexts == [c] && Valid()
    {
      contexts := [c];
    }

    /** `reset`: walking only. */
    method Reset()
      modifies this
      ensures contexts == [Walking] && Valid()
    {
      contexts := [Walking];
    }
  }

  lemma {:induction false} FirstIncompatibleAt(cs: seq<InputContext>, c: InputContext, i: nat)
    requires i < |cs| && !AllowsConcurrent(c, cs[i])
    requires forall k :: 0 <= k < i ==> AllowsConcurrent(c, cs[k])
    ensures FirstIncompatible(cs, c) == Some(i)
  {
    if i > 0 {
      FirstIncompatibleAt(cs[1..], c, i - 1);
    }
  }

  lemma {:induction false} InsertPosAt(cs: seq<InputContext>, c: InputContext, pos: nat)
    requires pos <= |cs|
    requires forall k :: 0 <= k < pos ==> Priority(cs[k]) >= Priority(c)
    requires pos < |cs| ==> Priority(cs[pos]) < Priority(c)
    ensures InsertPos(cs, c) == pos
  {
    if pos > 0 {
      InsertPosAt(cs[1..], c, pos - 1);
    }
  }

  lemma {:induction false} FindAt(cs: seq<InputContext>, c: InputContext, pos: nat)
    requires pos < |cs| && cs[pos] == c && c !in cs[..pos]
    ensures Find(cs, c) == Some(pos)
  {
    if pos > 0 {
      assert cs[0] in cs[..pos];
      assert cs[1..][..pos - 1] == cs[1..pos];
      assert forall x :: x in cs[1..pos] ==> x in cs[..pos];
      FindAt(cs[1..], c, pos - 1);
    }
  }

  /** A menu can never be pushed onto a non-empty stack, and nothing can be
      pushed onto a stack that holds the menu. */
  lemma MenuIsExclusive(cs: seq<InputContext>, c: InputContext)
    requires |cs| >= 1
    ensures FirstIncompatible(cs, Menu) == Some(0)
    ensures Menu in cs ==> FirstIncompatible(cs, c).Some?
  {
    if Menu in cs {
      var k :| 0 <= k < |cs| && cs[k] == Menu;
      assert !AllowsConcurrent(c, cs[k]);
    }
  }

  /** A successful push makes the new context active exactly when it
      outranks the previous active context. */
  lemma PushedActive(cs: seq<InputContext>, c: InputContext)
    requires |cs| >= 1
    ensures InsertAt(cs, InsertPos(cs, c), c)[0] == c <==> Priority(cs[0]) < Priority(c) || cs[0] == c
  {
  }

  /** The story of the stack test: driving pushed onto walking becomes
      active, flying is then refused, and popping driving brings walking
      back. */
  lemma StackExample()
    ensures FirstIncompatible([Walking], Driving).None?
    ensures InsertAt([Walking], InsertPos([Walking], Driving), Driving) == [Driving, Walking]
    ensures FirstIncompatible([Driving, Walking], Flying) == Some(0)
    ensures Find([Driving, Walking], Driving) == Some(0)
  {
    assert InsertPos([Walking], Driving) == 0;
    assert [Walking][..0] + [Driving] + [Walking][0..] == [Driving, Walking];
  }
}
