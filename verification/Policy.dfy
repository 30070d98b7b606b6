/**
  Run policies and the order between them.  A policy means a set of tools and a
  set of resource kinds over all strings; the procedure that compares two
  policies looks only at their finite lists.
 */
module Policy {
  import opened Options

  const STAR: string := "*"

  datatype RunPolicy = RunPolicy(
    allowTools: seq<string>, denyTools: seq<string>, resourceKinds: seq<string>,
    maxChildren: int, childInherit: bool)
  {
    /** A deny always wins, and "*" stands for every tool in either list. */
    predicate AllowsTool(name: string) {
      name !in denyTools && STAR !in denyTools && (STAR in allowTools || name in allowTools)
    }

    predicate AllowsKind(kind: string) {
      STAR in resourceKinds || kind in resourceKinds
    }

    predicate AllowHasStar() { STAR !in denyTools && STAR in allowTools }
  }

  /** What "no wider" means: over all strings, and on the spawn bound. */
  ghost predicate Within(child: RunPolicy, parent: RunPolicy) {
    && child.maxChildren <= parent.maxChildren
    && (forall name: string :: child.AllowsTool(name) ==> parent.AllowsTool(name))
    && (forall kind: string :: child.AllowsKind(kind) ==> parent.AllowsKind(kind))
  }

  // ---------------------------------------------------------------- a string outside every list

  function Longest(s: seq<string>): nat {
    if s == [] then 0
    else var rest := Longest(s[..|s| - 1]); if |s[|s| - 1]| > rest then |s[|s| - 1]| else rest
  }

  lemma {:induction false} LongestBounds(s: seq<string>, x: string)
    requires x in s
    ensures |x| <= Longest(s)
  {
    if x != s[|s| - 1] {
      assert x in s[..|s| - 1];
      LongestBounds(s[..|s| - 1], x);
    }
  }

  /** No finite list names every string. */
  lemma Unlisted(s: seq<string>) returns (x: string)
    ensures x !in s
  {
    x := seq(Longest(s) + 1, i => 'x');
    if x in s { LongestBounds(s, x); }
  }

  /** An allow list with "*" is within no list without it: some tool outside both lists separates them. */
  lemma StarEscapes(child: RunPolicy, parent: RunPolicy)
    requires child.AllowHasStar() && !parent.AllowHasStar()
    ensures exists name: string :: child.AllowsTool(name) && !parent.AllowsTool(name)
  {
    var x := Unlisted(child.denyTools + parent.allowTools);
    assert x !in child.denyTools && x !in parent.allowTools;
    assert child.AllowsTool(x) && !parent.AllowsTool(x);
  }

  // ---------------------------------------------------------------- the comparison

  method StringSet(values: seq<string>) returns (out: set<string>)
    ensures forall v :: v in out <==> v in values
  {
    out := {};
    var i := 0;
    while i < |values|
      invariant i <= |values| && forall v :: v in out <==> v in values[..i]
    {
      out := out + {values[i]};
      i := i + 1;
    }
  }

  /** The finite set a policy permits; {"*"} stands for an allow list with "*". */
  method EffectiveAllow(p: RunPolicy) returns (out: set<string>)
    ensures p.AllowHasStar() ==> out == {STAR}
    ensures !p.AllowHasStar() ==> forall name: string :: name in out <==> p.AllowsTool(name)
  {
    var allow := StringSet(p.allowTools);
    var deny := StringSet(p.denyTools);
    if STAR in deny { return {}; }
    if STAR in allow { return {STAR}; }
    out := {};
    while allow != {}
      invariant forall t :: t in allow || t in out ==> t in p.allowTools
      invariant forall t :: t in out ==> t !in p.denyTools
      invariant forall t :: t in p.allowTools ==> t in allow || t in out || t in p.denyTools
      decreases |allow|
    {
      var t :| t in allow;
      if t !in deny { out := out + {t}; }
      allow := allow - {t};
    }
  }

  method ToolsSubset(p: RunPolicy, parent: RunPolicy) returns (ok: bool)
    ensures ok <==> forall name: string :: p.AllowsTool(name) ==> parent.AllowsTool(name)
  {
    if p.AllowHasStar() && !parent.AllowHasStar() {
      StarEscapes(p, parent);
      return false;
    }
    if !p.AllowHasStar() {
      var parentAllow := EffectiveAllow(parent);
      var parentStar := parent.AllowHasStar();
      var parentDeny := StringSet(parent.denyTools);
      var todo := EffectiveAllow(p);
      while todo != {}
        invariant forall t :: t in todo ==> p.AllowsTool(t)
        invariant forall t :: p.AllowsTool(t) && t !in todo ==> parent.AllowsTool(t)
        decreases |todo|
      {
        var t :| t in todo;
        todo := todo - {t};
        if t == STAR { continue; }
        if t in parentDeny { return false; }
        if !parentStar && t !in parentAllow { return false; }
      }
    } else {
      var childDeny := StringSet(p.denyTools);
      var i := 0;
      while i < |parent.denyTools|
        invariant i <= |parent.denyTools|
        invariant forall d :: d in parent.denyTools[..i] ==> d in p.denyTools
      {
        var d := parent.denyTools[i];
        i := i + 1;
        if d == STAR { continue; }
        if d !in childDeny && STAR !in childDeny {
          assert p.AllowsTool(d) && !parent.AllowsTool(d);
          return false;
        }
      }
    }
    ok := true;
  }

  method KindsSubset(p: RunPolicy, parent: RunPolicy) returns (ok: bool)
    ensures ok <==> forall kind: string :: p.AllowsKind(kind) ==> parent.AllowsKind(kind)
  {
    if |p.resourceKinds| == 0 { return true; }
    var ps := StringSet(parent.resourceKinds);
    if STAR in ps { return true; }
    var cs := StringSet(p.resourceKinds);
    if STAR in cs {
      var x := Unlisted(parent.resourceKinds);
      assert p.AllowsKind(x) && !parent.AllowsKind(x);
      return false;
    }
    while cs != {}
      invariant forall k :: k in cs ==> k in p.resourceKinds
      invariant forall k :: k in p.resourceKinds && k !in cs ==> k in parent.resourceKinds
      decreases |cs|
    {
      var k :| k in cs;
      cs := cs - {k};
      if k !in ps {
        assert p.AllowsKind(k) && !parent.AllowsKind(k);
        return false;
      }
    }
    ok := true;
  }

  /** The comparison of finite lists decides the order on meanings, in both directions. */
  method IsSubset(p: RunPolicy, parent: RunPolicy) returns (ok: bool)
    ensures ok <==> Within(p, parent)
  {
    if p.maxChildren > parent.maxChildren { return false; }
    var tools := ToolsSubset(p, parent);
    if !tools { return false; }
    ok := KindsSubset(p, parent);
  }

  // ---------------------------------------------------------------- a child's policy

  /** What a spawn asks for: a whole policy, a tool list, or nothing. */
  datatype ChildSpec = ChildSpec(policy: Option<RunPolicy>, tools: Option<seq<string>>)

  function Requested(spec: ChildSpec, parent: RunPolicy): RunPolicy {
    if spec.policy.Some? then spec.policy.value
    else if spec.tools.Some? then parent.(allowTools := spec.tools.value)
    else parent
  }

  /** The policy a child runs under, if the spawn is allowed. */
  ghost function ChildPolicy(spec: ChildSpec, parent: RunPolicy): (r: Option<RunPolicy>)
    ensures r.Some? ==> Within(r.value, parent)
    ensures parent.childInherit ==> r == Some(parent)
  {
    if parent.childInherit then Some(parent)
    else if Within(Requested(spec, parent), parent) then Some(Requested(spec, parent))
    else None
  }

  /** A tool list stands for these tools under the parent's denials; an empty one for none. */
  predicate ListAllows(tools: seq<string>, parent: RunPolicy, name: string) {
    name !in parent.denyTools && "*" !in parent.denyTools && (name in tools || "*" in tools)
  }

  /** What a child is granted, by what its spawn asks for: nothing wider than its parent, and no more than it asked. */
  lemma GrantedExactly(spec: ChildSpec, parent: RunPolicy)
    ensures var r := ChildPolicy(spec, parent);
            if parent.childInherit then r == Some(parent)
            else if spec.policy.Some? then
              r == if Within(spec.policy.value, parent) then Some(spec.policy.value) else None
            else if spec.tools.Some? then
              && (r.Some? <==>
                    forall name: string :: ListAllows(spec.tools.value, parent, name) ==> parent.AllowsTool(name))
              && (r.Some? ==>
                    && (forall name: string :: r.value.AllowsTool(name) <==> ListAllows(spec.tools.value, parent, name))
                    && r.value.allowTools == spec.tools.value && r.value.denyTools == parent.denyTools
                    && r.value.resourceKinds == parent.resourceKinds
                    && r.value.maxChildren == parent.maxChildren && r.value.childInherit == parent.childInherit)
            else r == Some(parent)
  {
    if !parent.childInherit && spec.policy.None? && spec.tools.Some? {
      var asked := Requested(spec, parent);
      assert forall name: string :: asked.AllowsTool(name) <==> ListAllows(spec.tools.value, parent, name);
    }
  }

  method ResolvePolicy(spec: ChildSpec, parent: RunPolicy) returns (r: Option<RunPolicy>)
    ensures r == ChildPolicy(spec, parent)
    ensures parent.childInherit ==> r == Some(parent)
    ensures !parent.childInherit && spec.policy.Some? ==>
              r == if Within(spec.policy.value, parent) then Some(spec.policy.value) else None
    ensures !parent.childInherit && spec.policy.None? && spec.tools.Some? ==>
              && (r.Some? <==>
                    forall name: string :: ListAllows(spec.tools.value, parent, name) ==> parent.AllowsTool(name))
              && (r.Some? ==>
                    && (forall name: string :: r.value.AllowsTool(name) <==> ListAllows(spec.tools.value, parent, name))
                    && r.value.denyTools == parent.denyTools && r.value.resourceKinds == parent.resourceKinds
                    && r.value.maxChildren == parent.maxChildren && !r.value.childInherit)
    ensures !parent.childInherit && spec.policy.None? && spec.tools.None? ==> r == Some(parent)
  {
    GrantedExactly(spec, parent);
    if parent.childInherit { return Some(parent); }
    var child := parent;
    if spec.policy.Some? {
      child := spec.policy.value;
    } else if spec.tools.Some? {
      child := child.(allowTools := spec.tools.value);
    }
    var ok := IsSubset(child, parent);
    if !ok { return None; }
    r := Some(child);
  }
}
