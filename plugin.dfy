/**
 * Plugins: objects whose `beforeX` and `afterX` functions intercept method
 * `X` of a class prototype. Registering a plugin wraps each targeted method
 * once and appends the plugin's functions to that method's `before` and
 * `after` lists (the prototype's `_inc` record). An intercepted call folds
 * the arguments through the before-hooks, runs the original method on the
 * result, and folds the result through the after-hooks.
 *
 * Hook functions are values of a type parameter compared by identity. What
 * a hook computes is passed in as a function returning `None` for a `null`
 * or `undefined` return.
 */
module Plugins {
  import opened Wrappers

  // ---------------------------------------------------------------------------
  // Property names
  // ---------------------------------------------------------------------------

  predicate IsUpper(c: char) { 'A' <= c <= 'Z' }

  function Lower(c: char): (r: char)
    ensures IsUpper(c) ==> r as int == c as int + 32
    ensures !IsUpper(c) ==> r == c
  {
    if IsUpper(c) then (c as int + 32) as char else c
  }

  /**
   * Lowering never leaves an upper-case letter, so it is idempotent; it
   * maps `A`..`Z` onto `a`..`z` and no two upper-case letters to the same one.
   */
  lemma LowerLaws(c: char, d: char)
    ensures !IsUpper(Lower(c)) && Lower(Lower(c)) == Lower(c)
    ensures IsUpper(c) ==> 'a' <= Lower(c) <= 'z'
    ensures IsUpper(c) && IsUpper(d) && Lower(c) == Lower(d) ==> c == d
  {
  }

  /** The position of the first upper-case letter. */
  function FirstUpper(s: string): (r: Option<nat>)
    ensures r.Some? ==> r.value < |s| && IsUpper(s[r.value]) &&
                        forall i :: 0 <= i < r.value ==> !IsUpper(s[i])
    ensures r.None? ==> forall i :: 0 <= i < |s| ==> !IsUpper(s[i])
  {
    if s == [] then None
    else if IsUpper(s[0]) then Some(0)
    else match FirstUpper(s[1..])
      case None => None
      case Some(i) => Some(i + 1)
  }

  /**
   * The method a plugin property targets: the name from its first
   * upper-case letter on, with that letter in lower case (`beforeAdd` and
   * `doAdd` both target `add`).
   */
  function MethodOf(name: string): (r: Option<string>)
    ensures r.Some? <==> exists i :: 0 <= i < |name| && IsUpper(name[i])
    ensures r.Some? ==> var i := FirstUpper(name).value;
                        |r.value| == |name| - i && r.value[0] == Lower(name[i]) &&
                        r.value[1..] == name[i + 1..]
  {
    match FirstUpper(name)
    case None => None
    case Some(i) => Some([Lower(name[i])] + name[i + 1..])
  }

  predicate StartsWith(s: string, prefix: string)
  {
    |prefix| <= |s| && s[..|prefix|] == prefix
  }

  /** What a plugin property does: a before-hook, an after-hook, or neither. */
  datatype Role = BeforeHook(target: string) | AfterHook(target: string) | Plain(target: string) | NoMethod

  function RoleOf(name: string): (r: Role)
    ensures r.NoMethod? <==> MethodOf(name).None?
    ensures r.BeforeHook? <==> MethodOf(name).Some? && StartsWith(name, "before")
    ensures r.AfterHook? <==> MethodOf(name).Some? && !StartsWith(name, "before") && StartsWith(name, "after")
    ensures !r.NoMethod? ==> r.target == MethodOf(name).value
  {
    match MethodOf(name)
    case None => NoMethod
    case Some(m) =>
      if StartsWith(name, "before") then BeforeHook(m)
      else if StartsWith(name, "after") then AfterHook(m)
      else Plain(m)
  }

  // ---------------------------------------------------------------------------
  // Interceptor lists
  // ---------------------------------------------------------------------------

  /** The `before` and `after` lists of one intercepted method. */
  datatype Hooks<H> = Hooks(before: seq<H>, after: seq<H>)

  /** A plugin: its own property names with their function values, in order. */
  type Plugin<H> = seq<(string, H)>

  /** The before- or after-list of `m`, empty when `m` is not intercepted. */
  function ListOf<H>(inc: map<string, Hooks<H>>, m: string, before: bool): seq<H>
  {
    if m !in inc then [] else if before then inc[m].before else inc[m].after
  }

  /**
   * Registering one property: when it targets a method the prototype has,
   * the method gets an (initially empty) entry and a before- or after-hook
   * is appended to its list.
   */
  function RegisterOne<H>(inc: map<string, Hooks<H>>, methods: set<string>, prop: (string, H)): (r: map<string, Hooks<H>>)
    ensures r.Keys == inc.Keys + (if RoleOf(prop.0).NoMethod? || RoleOf(prop.0).target !in methods then {}
                                  else {RoleOf(prop.0).target})
  {
    var role := RoleOf(prop.0);
    if role.NoMethod? || role.target !in methods then inc
    else
      var m := role.target;
      var e := if m in inc then inc[m] else Hooks([], []);
      inc[m := match role
              case BeforeHook(_) => e.(before := e.before + [prop.1])
              case AfterHook(_) => e.(after := e.after + [prop.1])
              case Plain(_) => e]
  }

  /** Registering every property of a plugin, in order. */
  function RegisterAll<H>(inc: map<string, Hooks<H>>, methods: set<string>, plugin: Plugin<H>): map<string, Hooks<H>>
    decreases |plugin|
  {
    if plugin == [] then inc
    else RegisterOne(RegisterAll(inc, methods, plugin[..|plugin| - 1]), methods, plugin[|plugin| - 1])
  }

  /** The hook one property contributes to the before- or after-list of `m`: its function, or nothing. */
  function HookOf<H>(prop: (string, H), m: string, before: bool): (r: seq<H>)
    ensures |r| <= 1
  {
    var role := RoleOf(prop.0);
    if (if before then role == BeforeHook(m) else role == AfterHook(m)) then [prop.1] else []
  }

  /** The plugin's hooks of one kind for method `m`, in property order. */
  function Pushes<H>(plugin: Plugin<H>, m: string, before: bool): (r: seq<H>)
    ensures |r| <= |plugin|
    decreases |plugin|
  {
    if plugin == [] then []
    else Pushes(plugin[..|plugin| - 1], m, before) + HookOf(plugin[|plugin| - 1], m, before)
  }

  /** A two-property plugin pushes what each property contributes, in order. */
  lemma PushesTwo<H>(x: (string, H), y: (string, H), m: string, before: bool)
    ensures Pushes([x, y], m, before) == HookOf(x, m, before) + HookOf(y, m, before)
  {
    assert [x, y][..1] == [x];
    assert [x][..0] == [];
  }

  /** Removes the first occurrence of `h`, as `indexOf` and `splice` do. */
  function RemoveFirst<H(==)>(s: seq<H>, h: H): (r: seq<H>)
    ensures h in s ==> |r| == |s| - 1
    ensures h !in s ==> r == s
  {
    if s == [] then []
    else if s[0] == h then s[1..]
    else [s[0]] + RemoveFirst(s[1..], h)
  }

  /** Unregistering one property takes its function out of the method's list. */
  function UnregisterOne<H(==)>(inc: map<string, Hooks<H>>, prop: (string, H)): (r: map<string, Hooks<H>>)
    ensures r.Keys == inc.Keys
  {
    var role := RoleOf(prop.0);
    if role.NoMethod? || role.target !in inc then inc
    else
      var m := role.target;
      var e := inc[m];
      inc[m := match role
              case BeforeHook(_) => e.(before := RemoveFirst(e.before, prop.1))
              case AfterHook(_) => e.(after := RemoveFirst(e.after, prop.1))
              case Plain(_) => e]
  }

  function UnregisterAll<H(==)>(inc: map<string, Hooks<H>>, plugin: Plugin<H>): map<string, Hooks<H>>
    decreases |plugin|
  {
    if plugin == [] then inc
    else UnregisterOne(UnregisterAll(inc, plugin[..|plugin| - 1]), plugin[|plugin| - 1])
  }

  /** Removing each element of `s` in turn. */
  function RemoveEach<H(==)>(l: seq<H>, s: seq<H>): seq<H>
    decreases |s|
  {
    if s == [] then l else RemoveFirst(RemoveEach(l, s[..|s| - 1]), s[|s| - 1])
  }

  /**
   * After registering, each list of `m` is the old list followed by the
   * plugin's hooks for `m` in order; methods the prototype lacks get none.
   */
  lemma {:induction false} RegisterAppends<H>(inc: map<string, Hooks<H>>, methods: set<string>, plugin: Plugin<H>, m: string, before: bool)
    ensures ListOf(RegisterAll(inc, methods, plugin), m, before) ==
            ListOf(inc, m, before) + (if m in methods then Pushes(plugin, m, before) else [])
    ensures m !in methods ==> (m in RegisterAll(inc, methods, plugin) <==> m in inc)
    decreases |plugin|
  {
    if plugin != [] {
      var init, last := plugin[..|plugin| - 1], plugin[|plugin| - 1];
      RegisterAppends(inc, methods, init, m, before);
      RegisterOneAppends(RegisterAll(inc, methods, init), methods, last, m, before);
    }
  }

  /** Registering one property appends its hook, if any, to the list of `m`. */
  lemma RegisterOneAppends<H>(inc: map<string, Hooks<H>>, methods: set<string>, prop: (string, H), m: string, before: bool)
    ensures ListOf(RegisterOne(inc, methods, prop), m, before) ==
            ListOf(inc, m, before) + (if m in methods then HookOf(prop, m, before) else [])
  {
    var role := RoleOf(prop.0);
    if !role.NoMethod? && role.target in methods && role.target == m {
      var e := if m in inc then inc[m] else Hooks([], []);
      assert ListOf(inc, m, before) == if before then e.before else e.after;
    }
  }

  /** After unregistering, each list of `m` has the plugin's hooks taken out one by one. */
  lemma {:induction false} UnregisterRemoves<H>(inc: map<string, Hooks<H>>, plugin: Plugin<H>, m: string, before: bool)
    ensures ListOf(UnregisterAll(inc, plugin), m, before) == RemoveEach(ListOf(inc, m, before), Pushes(plugin, m, before))
    ensures UnregisterAll(inc, plugin).Keys == inc.Keys
    decreases |plugin|
  {
    if plugin != [] {
      var init, last := plugin[..|plugin| - 1], plugin[|plugin| - 1];
      UnregisterRemoves(inc, init, m, before);
      var role := RoleOf(last.0);
      var hit := if before then role == BeforeHook(m) else role == AfterHook(m);
      var prevList := RemoveEach(ListOf(inc, m, before), Pushes(init, m, before));
      if hit {
        assert Pushes(plugin, m, before) == Pushes(init, m, before) + [last.1];
        assert Pushes(plugin, m, before)[..|Pushes(plugin, m, before)| - 1] == Pushes(init, m, before);
        if m !in inc {
          RemoveEachEmpty(Pushes(init, m, before));
        }
      } else {
        assert Pushes(plugin, m, before) == Pushes(init, m, before) + [];
        var prev := UnregisterAll(inc, init);
        if !role.NoMethod? && role.target in prev && role.target == m {
          assert role.BeforeHook? ==> !before;
          assert role.AfterHook? ==> before;
        }
        assert ListOf(UnregisterOne(prev, last), m, before) == ListOf(prev, m, before);
        assert UnregisterAll(inc, plugin) == UnregisterOne(prev, last);
        assert Pushes(plugin, m, before) == Pushes(init, m, before);
      }
    }
  }

  /** Nothing can be taken out of an empty list. */
  lemma {:induction false} RemoveEachEmpty<H>(s: seq<H>)
    ensures RemoveEach([], s) == []
    decreases |s|
  {
    if s != [] {
      RemoveEachEmpty(s[..|s| - 1]);
    }
  }

  /** Taking out functions that are not in the list changes nothing. */
  lemma {:induction false} RemoveEachAbsent<H>(l: seq<H>, s: seq<H>)
    requires forall i :: 0 <= i < |s| ==> s[i] !in l
    ensures RemoveEach(l, s) == l
    decreases |s|
  {
    if s != [] {
      RemoveEachAbsent(l, s[..|s| - 1]);
    }
  }

  /** Taking out an element that is not in front of `l`'s suffix `[h] + t` removes exactly it. */
  lemma {:induction false} RemoveFirstAfter<H>(l: seq<H>, h: H, t: seq<H>)
    requires h !in l
    ensures RemoveFirst(l + [h] + t, h) == l + t
  {
    if l == [] {
      assert l + [h] + t == [h] + t;
    } else {
      assert (l + [h] + t)[1..] == l[1..] + [h] + t;
      assert h != l[0];
      RemoveFirstAfter(l[1..], h, t);
      assert [l[0]] + (l[1..] + t) == l + t;
    }
  }

  /** Removing, in order, hooks that were appended in that order gives back the list. */
  lemma {:induction false} RemoveEachAppended<H>(l: seq<H>, s: seq<H>, t: seq<H>)
    requires forall i, j :: 0 <= i < j < |s| ==> s[i] != s[j]
    requires forall i :: 0 <= i < |s| ==> s[i] !in l
    ensures RemoveEach(l + s + t, s) == l + t
    decreases |s|
  {
    if s == [] {
      assert l + s + t == l + t;
    } else {
      var init, h := s[..|s| - 1], s[|s| - 1];
      assert s == init + [h];
      assert l + s + t == l + init + ([h] + t);
      assert init == s[..|s| - 1];
      RemoveEachAppended(l, init, [h] + t);
      assert h !in l;
      assert l + ([h] + t) == l + [h] + t;
      RemoveFirstAfter(l, h, t);
    }
  }

  /**
   * Unregistering a plugin right after registering it restores every
   * before- and after-list, provided its functions are distinct and were
   * not registered already.
   */
  lemma UnregisterUndoesRegister<H>(inc: map<string, Hooks<H>>, methods: set<string>, plugin: Plugin<H>, m: string, before: bool)
    requires var s := Pushes(plugin, m, before);
             forall i, j :: 0 <= i < j < |s| ==> s[i] != s[j]
    requires var s := Pushes(plugin, m, before);
             forall i :: 0 <= i < |s| ==> s[i] !in ListOf(inc, m, before)
    ensures ListOf(UnregisterAll(RegisterAll(inc, methods, plugin), plugin), m, before) == ListOf(inc, m, before)
  {
    var l, s := ListOf(inc, m, before), Pushes(plugin, m, before);
    RegisterAppends(inc, methods, plugin, m, before);
    UnregisterRemoves(RegisterAll(inc, methods, plugin), plugin, m, before);
    if m in methods {
      RemoveEachAppended(l, s, []);
      assert l + s + [] == l + s;
      assert l + [] == l;
    } else {
      assert l + [] == l;
      RemoveEachAbsent(l, s);
    }
  }

  // ---------------------------------------------------------------------------
  // Intercepted calls
  // ---------------------------------------------------------------------------

  /** A hook's `null` return keeps the previous value. */
  function Keep<T>(returned: Option<T>, previous: T): (r: T)
    ensures returned.Some? ==> r == returned.value
    ensures returned.None? ==> r == previous
  {
    if returned.Some? then returned.value else previous
  }

  /** The before-hooks run in order, each on the arguments the previous one left. */
  function FoldBefore<H, A>(hooks: seq<H>, args: seq<A>, run: (H, seq<A>) -> Option<seq<A>>): seq<A>
  {
    if hooks == [] then args else FoldBefore(hooks[1..], Keep(run(hooks[0], args), args), run)
  }

  /** The after-hooks run in order on the result, each also given the call's arguments. */
  function FoldAfter<H, A, R>(hooks: seq<H>, result: R, args: seq<A>, run: (H, R, seq<A>) -> Option<R>): R
  {
    if hooks == [] then result else FoldAfter(hooks[1..], Keep(run(hooks[0], result, args), result), args, run)
  }

  /** An extra hook at the end of the list acts on what the others produced. */
  lemma {:induction false} FoldBeforeSnoc<H, A>(hooks: seq<H>, h: H, args: seq<A>, run: (H, seq<A>) -> Option<seq<A>>)
    ensures FoldBefore(hooks + [h], args, run) ==
            Keep(run(h, FoldBefore(hooks, args, run)), FoldBefore(hooks, args, run))
  {
    if hooks != [] {
      assert (hooks + [h])[1..] == hooks[1..] + [h];
      FoldBeforeSnoc(hooks[1..], h, Keep(run(hooks[0], args), args), run);
    }
  }

  lemma {:induction false} FoldAfterSnoc<H, A, R>(hooks: seq<H>, h: H, result: R, args: seq<A>, run: (H, R, seq<A>) -> Option<R>)
    ensures FoldAfter(hooks + [h], result, args, run) ==
            Keep(run(h, FoldAfter(hooks, result, args, run), args), FoldAfter(hooks, result, args, run))
  {
    if hooks != [] {
      assert (hooks + [h])[1..] == hooks[1..] + [h];
      FoldAfterSnoc(hooks[1..], h, Keep(run(hooks[0], result, args), result), args, run);
    }
  }

  /** Hooks that all return `null` change nothing. */
  lemma {:induction false} SilentHooks<H, A, R>(hooks: seq<H>, args: seq<A>, result: R,
                                                 runB: (H, seq<A>) -> Option<seq<A>>, runA: (H, R, seq<A>) -> Option<R>)
    requires forall i :: 0 <= i < |hooks| ==> runB(hooks[i], args).None? && runA(hooks[i], result, args).None?
    ensures FoldBefore(hooks, args, runB) == args
    ensures FoldAfter(hooks, result, args, runA) == result
  {
    if hooks != [] {
      assert forall i :: 0 <= i < |hooks[1..]| ==> hooks[1..][i] == hooks[i + 1];
      SilentHooks(hooks[1..], args, result, runB, runA);
    }
  }

  /**
   * Calling method `m`: an intercepted method folds through its hooks
   * around the original; any other method is the original.
   */
  function Invoke<H, A, R>(inc: map<string, Hooks<H>>, m: string, args: seq<A>, original: seq<A> -> R,
                           runB: (H, seq<A>) -> Option<seq<A>>, runA: (H, R, seq<A>) -> Option<R>): (r: R)
    ensures m !in inc ==> r == original(args)
    ensures m in inc ==> r == FoldAfter(inc[m].after, original(FoldBefore(inc[m].before, args, runB)), args, runA)
  {
    if m !in inc then original(args)
    else
      var e := inc[m];
      FoldAfter(e.after, original(FoldBefore(e.before, args, runB)), args, runA)
  }

  /**
   * Interception is transparent when the hooks are silent: if every hook of
   * `m` returns `null`, the intercepted call gives what the original gives.
   */
  lemma InvokeTransparent<H, A, R>(inc: map<string, Hooks<H>>, m: string, args: seq<A>, original: seq<A> -> R,
                                   runB: (H, seq<A>) -> Option<seq<A>>, runA: (H, R, seq<A>) -> Option<R>)
    requires m in inc ==> forall i :: 0 <= i < |inc[m].before| ==> runB(inc[m].before[i], args).None?
    requires m in inc ==> forall i :: 0 <= i < |inc[m].after| ==> runA(inc[m].after[i], original(args), args).None?
    ensures Invoke(inc, m, args, original, runB, runA) == original(args)
  {
    if m in inc {
      var quietA := (h: H, r: R, a: seq<A>) => None;
      var quietB := (h: H, a: seq<A>) => None;
      SilentHooks(inc[m].before, args, original(args), runB, quietA);
      SilentHooks(inc[m].after, args, original(args), quietB, runA);
    }
  }

  /**
   * An after-hook registered last acts on what the call gave before it was
   * registered: its value when it returns one, that result otherwise.
   */
  lemma InvokeWithLaterAfterHook<H, A, R>(inc: map<string, Hooks<H>>, m: string, h: H, args: seq<A>, original: seq<A> -> R,
                                          runB: (H, seq<A>) -> Option<seq<A>>, runA: (H, R, seq<A>) -> Option<R>)
    requires m in inc
    ensures var before := Invoke(inc, m, args, original, runB, runA);
            Invoke(inc[m := inc[m].(after := inc[m].after + [h])], m, args, original, runB, runA) ==
            Keep(runA(h, before, args), before)
  {
    var e := inc[m];
    FoldAfterSnoc(e.after, h, original(FoldBefore(e.before, args, runB)), args, runA);
  }

  /**
   * A before-hook registered last acts on the arguments the earlier ones
   * left, and the original runs on what it returns.
   */
  lemma InvokeWithLaterBeforeHook<H, A, R>(inc: map<string, Hooks<H>>, m: string, h: H, args: seq<A>, original: seq<A> -> R,
                                           runB: (H, seq<A>) -> Option<seq<A>>, runA: (H, R, seq<A>) -> Option<R>)
    requires m in inc
    ensures var left := FoldBefore(inc[m].before, args, runB);
            Invoke(inc[m := inc[m].(before := inc[m].before + [h])], m, args, original, runB, runA) ==
            FoldAfter(inc[m].after, original(Keep(runB(h, left), left)), args, runA)
  {
    FoldBeforeSnoc(inc[m].before, h, args, runB);
  }

  // ---------------------------------------------------------------------------
  // Worked cases: `add(1, 2)` with a doubling after-hook
  // ---------------------------------------------------------------------------

  function Add(args: seq<int>): int { if |args| >= 2 then args[0] + args[1] else 0 }

  /** Hook 0 returns nothing, hook 1 doubles the result, hook 2 adds `p1 * p2`, hook 3 returns `[5, 6]`. */
  function RunBefore(h: nat, args: seq<int>): Option<seq<int>> { if h == 3 then Some([5, 6]) else None }

  function RunAfter(h: nat, result: int, args: seq<int>): Option<int>
  {
    if h == 1 then Some(result * 2)
    else if h == 2 && |args| >= 2 then Some(result + args[0] * args[1])
    else None
  }

  /** The call returns the result of all after-hooks, each given the original arguments. */
  lemma InvokeExamples(inc: map<string, Hooks<nat>>)
    ensures Invoke(inc["add" := Hooks([0], [1])], "add", [1, 2], Add, RunBefore, RunAfter) == 6
    ensures Invoke(inc["add" := Hooks([0], [1, 2])], "add", [1, 2], Add, RunBefore, RunAfter) == 8
    ensures Invoke(inc["add" := Hooks([0], [1, 0, 2])], "add", [1, 2], Add, RunBefore, RunAfter) == 8
    ensures Invoke(inc["add" := Hooks([0, 3], [])], "add", [1, 2], Add, RunBefore, RunAfter) == 11
    ensures Invoke(map[], "add", [1, 2], Add, RunBefore, RunAfter) == 3
  {
    assert [1, 0, 2][1..] == [0, 2];
    assert [0, 2][1..] == [2];
    assert [1, 2][1..] == [2];
    assert [0, 3][1..] == [3];
  }

  /** A lower-case prefix followed by an upper-case letter: the method is that letter lowered and the rest. */
  lemma MethodAfterPrefix(prefix: string, name: string)
    requires forall i :: 0 <= i < |prefix| ==> !IsUpper(prefix[i])
    requires |name| > 0 && IsUpper(name[0])
    ensures MethodOf(prefix + name) == Some([Lower(name[0])] + name[1..])
  {
    var s := prefix + name;
    assert s[|prefix|] == name[0];
    assert FirstUpper(s).value == |prefix|;
    assert s[|prefix| + 1..] == name[1..];
  }

  /**
   * `beforeX` is a before-hook of `x` and `afterX` an after-hook of `x`, for
   * every capitalised name `X`; behind any other lower-case prefix the
   * property only targets `x`.
   */
  lemma RoleOfPrefixed(name: string, other: string)
    requires |name| > 0 && IsUpper(name[0])
    requires forall i :: 0 <= i < |other| ==> !IsUpper(other[i])
    requires !StartsWith(other + name, "before") && !StartsWith(other + name, "after")
    ensures var m := [Lower(name[0])] + name[1..];
            RoleOf("before" + name) == BeforeHook(m) && RoleOf("after" + name) == AfterHook(m) &&
            RoleOf(other + name) == Plain(m)
  {
    MethodAfterPrefix("before", name);
    MethodAfterPrefix("after", name);
    MethodAfterPrefix(other, name);
    assert ("before" + name)[..6] == "before";
    assert ("after" + name)[..5] == "after";
    assert !StartsWith("after" + name, "before") by {
      assert ("after" + name)[0] == 'a';
    }
  }

  lemma BeforeAddRole()
    ensures RoleOf("beforeAdd") == BeforeHook("add")
  {
    assert "beforeAdd" == "before" + "Add";
    MethodAfterPrefix("before", "Add");
    assert [Lower('A')] + "dd" == "add";
    assert "beforeAdd"[..6] == "before";
  }

  lemma AfterAddRole()
    ensures RoleOf("afterAdd") == AfterHook("add")
  {
    assert "afterAdd" == "after" + "Add";
    MethodAfterPrefix("after", "Add");
    assert [Lower('A')] + "dd" == "add";
    assert "afterAdd"[..6] != "before" by { assert "afterAdd"[0] != 'b'; }
    assert "afterAdd"[..5] == "after";
  }

  lemma DoAddRole()
    ensures RoleOf("doAdd") == Plain("add")
  {
    assert "doAdd" == "do" + "Add";
    MethodAfterPrefix("do", "Add");
    assert [Lower('A')] + "dd" == "add";
    assert "doAdd"[..5] != "after" by { assert "doAdd"[0] != 'a'; }
    assert !StartsWith("doAdd", "before") by { assert |"before"| > |"doAdd"|; }
  }

  lemma AfterBazRole()
    ensures RoleOf("afterBaz") == AfterHook("baz")
  {
    assert "afterBaz" == "after" + "Baz";
    MethodAfterPrefix("after", "Baz");
    assert [Lower('B')] + "az" == "baz";
    assert "afterBaz"[..6] != "before" by { assert "afterBaz"[0] != 'b'; }
    assert "afterBaz"[..5] == "after";
  }

  /** `beforeBaz` has the same role pattern as `afterBaz`. */
  lemma BeforeBazRole()
    ensures RoleOf("beforeBaz") == BeforeHook("baz")
  {
    assert "beforeBaz" == "before" + "Baz";
    MethodAfterPrefix("before", "Baz");
    assert [Lower('B')] + "az" == "baz";
    assert "beforeBaz"[..6] == "before";
  }

  /** `beforeAdd` and `afterAdd` intercept `add`; `doAdd` only targets it; `afterBaz` targets `baz`. */
  lemma RoleExamples()
    ensures RoleOf("beforeAdd") == BeforeHook("add")
    ensures RoleOf("afterAdd") == AfterHook("add")
    ensures RoleOf("doAdd") == Plain("add")
    ensures RoleOf("afterBaz") == AfterHook("baz")
  {
    BeforeAddRole();
    AfterAddRole();
    DoAddRole();
    AfterBazRole();
  }

  /** The hooks `{beforeAdd: b, afterAdd: a}` pushes for `add`. */
  lemma MyPluginPushes(b: nat, a: nat)
    ensures Pushes([("beforeAdd", b), ("afterAdd", a)], "add", true) == [b]
    ensures Pushes([("beforeAdd", b), ("afterAdd", a)], "add", false) == [a]
  {
    BeforeAddRole();
    AfterAddRole();
    PushesTwo(("beforeAdd", b), ("afterAdd", a), "add", true);
    PushesTwo(("beforeAdd", b), ("afterAdd", a), "add", false);
  }

  /** Registering `{beforeAdd, afterAdd}` on a prototype with `add` puts one function in each list. */
  lemma RegisterOnce(b: nat, a: nat)
    ensures var inc := RegisterAll(map[], {"add"}, [("beforeAdd", b), ("afterAdd", a)]);
            ListOf(inc, "add", true) == [b] && ListOf(inc, "add", false) == [a]
  {
    MyPluginPushes(b, a);
    var m0: map<string, Hooks<nat>> := map[];
    RegisterAppends(m0, {"add"}, [("beforeAdd", b), ("afterAdd", a)], "add", true);
    RegisterAppends(m0, {"add"}, [("beforeAdd", b), ("afterAdd", a)], "add", false);
  }

  /** A plugin pushing exactly `[h]` onto a list that holds just `h` leaves `[h, h]`. */
  lemma RegisterAppendsAgain<H>(inc: map<string, Hooks<H>>, methods: set<string>, plugin: Plugin<H>, m: string, before: bool, h: H)
    requires m in methods && Pushes(plugin, m, before) == [h] && ListOf(inc, m, before) == [h]
    ensures ListOf(RegisterAll(inc, methods, plugin), m, before) == [h, h]
  {
    RegisterAppends(inc, methods, plugin, m, before);
    assert [h] + [h] == [h, h];
  }

  /** Registering the same plugin again appends a second function to each list. */
  lemma RegisterTwice(inc: map<string, Hooks<nat>>, b: nat, a: nat)
    requires ListOf(inc, "add", true) == [b] && ListOf(inc, "add", false) == [a]
    ensures var again := RegisterAll(inc, {"add"}, [("beforeAdd", b), ("afterAdd", a)]);
            ListOf(again, "add", true) == [b, b] && ListOf(again, "add", false) == [a, a]
  {
    MyPluginPushes(b, a);
    RegisterAppendsAgain(inc, {"add"}, [("beforeAdd", b), ("afterAdd", a)], "add", true, b);
    RegisterAppendsAgain(inc, {"add"}, [("beforeAdd", b), ("afterAdd", a)], "add", false, a);
  }

  /** A plugin for the missing method `baz` wraps nothing and leaves `add` alone. */
  lemma RegisterMissingMethod(inc: map<string, Hooks<nat>>, x: nat, before: bool)
    requires "baz" !in inc
    ensures var r := RegisterAll(inc, {"add"}, [("afterBaz", x), ("beforeBaz", x)]);
            "baz" !in r && ListOf(r, "add", before) == ListOf(inc, "add", before)
  {
    AfterBazRole();
    BeforeBazRole();
    PushesTwo(("afterBaz", x), ("beforeBaz", x), "add", before);
    assert Pushes([("afterBaz", x), ("beforeBaz", x)], "add", before) == [];
    RegisterAppends(inc, {"add"}, [("afterBaz", x), ("beforeBaz", x)], "add", before);
    RegisterAppends(inc, {"add"}, [("afterBaz", x), ("beforeBaz", x)], "baz", before);
  }

  /** A property that is neither `beforeX` nor `afterX` adds no hook. */
  lemma RegisterPlainProperty(inc: map<string, Hooks<nat>>, x: nat, before: bool)
    ensures ListOf(RegisterAll(inc, {"add"}, [("doAdd", x)]), "add", before) == ListOf(inc, "add", before)
  {
    DoAddRole();
    assert [("doAdd", x)][..0] == [];
    assert Pushes([("doAdd", x)], "add", before) == [];
    RegisterAppends(inc, {"add"}, [("doAdd", x)], "add", before);
  }

  // ---------------------------------------------------------------------------
  // extendObject
  // ---------------------------------------------------------------------------

  /** Adds the properties the object lacks; existing ones are never overwritten. */
  function Extend<V>(obj: map<string, V>, props: map<string, V>): (r: map<string, V>)
    ensures r.Keys == obj.Keys + props.Keys
    ensures forall k :: k in obj ==> r[k] == obj[k]
    ensures forall k :: k in props && k !in obj ==> r[k] == props[k]
  {
    map k | k in obj.Keys + props.Keys :: if k in obj then obj[k] else props[k]
  }

  /** Extending twice with the same properties is extending once. */
  lemma ExtendIdempotent<V>(obj: map<string, V>, props: map<string, V>)
    ensures Extend(Extend(obj, props), props) == Extend(obj, props)
  {
  }

  // ---------------------------------------------------------------------------
  // The prototype
  // ---------------------------------------------------------------------------

  /**
   * A class prototype: the names of its methods, its interceptor record
   * (`_inc`, whose keys are the methods that have been wrapped) and its
   * other properties.
   */
  class Prototype<H(==), V> {
    const methods: set<string>
    var inc: map<string, Hooks<H>>
    var props: map<string, V>

    constructor (methods: set<string>, props: map<string, V>)
      ensures this.methods == methods && this.props == props && inc == map[]
    {
      this.methods := methods;
      this.props := props;
      inc := map[];
    }

    /** Wraps each targeted method once and appends the plugin's hooks, property by property. */
    method Register(plugin: Plugin<H>)
      modifies this
      ensures inc == RegisterAll(old(inc), methods, plugin)
      ensures props == old(props)
      ensures forall m, b :: ListOf(inc, m, b) ==
                ListOf(old(inc), m, b) + (if m in methods then Pushes(plugin, m, b) else [])
    {
      ghost var inc0 := inc;
      var i := 0;
      while i < |plugin|
        invariant 0 <= i <= |plugin|
        invariant inc == RegisterAll(inc0, methods, plugin[..i]) && props == old(props)
      {
        assert plugin[..i + 1][..i] == plugin[..i];
        inc := RegisterOne(inc, methods, plugin[i]);
        i := i + 1;
      }
      assert plugin[..i] == plugin;
      forall m, b
        ensures ListOf(inc, m, b) == ListOf(inc0, m, b) + (if m in methods then Pushes(plugin, m, b) else [])
      {
        RegisterAppends(inc0, methods, plugin, m, b);
      }
    }

    /** Takes the plugin's functions out of the lists; nothing happens to unwrapped methods. */
    method Unregister(plugin: Plugin<H>)
      modifies this
      ensures inc == UnregisterAll(old(inc), plugin)
      ensures props == old(props)
      ensures inc.Keys == old(inc).Keys
    {
      ghost var inc0 := inc;
      var i := 0;
      while i < |plugin|
        invariant 0 <= i <= |plugin|
        invariant inc == UnregisterAll(inc0, plugin[..i]) && props == old(props)
        invariant inc.Keys == inc0.Keys
      {
        assert plugin[..i + 1][..i] == plugin[..i];
        inc := UnregisterOne(inc, plugin[i]);
        i := i + 1;
      }
      assert plugin[..i] == plugin;
    }

    /** Adds the properties the prototype lacks. */
    method ExtendWith(extra: map<string, V>)
      modifies this
      ensures props == Extend(old(props), extra) && inc == old(inc)
    {
      props := Extend(props, extra);
    }
  }

  /** A target without a prototype is left alone. */
  method RegisterPlugin<H(==), V>(target: Option<Prototype<H, V>>, plugin: Plugin<H>)
    modifies if target.Some? then {target.value} else {}
    ensures target.Some? ==> target.value.inc == RegisterAll(old(target.value.inc), target.value.methods, plugin)
  {
    if target.Some? {
      target.value.Register(plugin);
    }
  }

  method UnregisterPlugin<H(==), V>(target: Option<Prototype<H, V>>, plugin: Plugin<H>)
    modifies if target.Some? then {target.value} else {}
    ensures target.Some? ==> target.value.inc == UnregisterAll(old(target.value.inc), plugin)
  {
    if target.Some? {
      target.value.Unregister(plugin);
    }
  }

  method ExtendObject<H(==), V>(target: Option<Prototype<H, V>>, extra: map<string, V>)
    modifies if target.Some? then {target.value} else {}
    ensures target.Some? ==> target.value.props == Extend(old(target.value.props), extra)
  {
    if target.Some? {
      target.value.ExtendWith(extra);
    }
  }
}
