/** Prompt templates with named placeholders, and Python's `str.format`
    restricted to what the shipped templates use: `{name}` holes filled from
    keyword arguments. A template is a list of literal pieces and holes; the
    literal prose of the shipped templates is not part of this model. */
module Templates {
  import opened Wrappers
  import opened Text

  datatype Segment = Lit(text: string) | Hole(name: string)

  type Template = seq<Segment>

  /** The keyword arguments passed to `format`. */
  type Bindings = map<string, string>

  /** The names of the placeholders of `t`. */
  function Holes(t: Template): set<string>
    decreases |t|
  {
    if |t| == 0 then {}
    else (if t[0].Hole? then {t[0].name} else {}) + Holes(t[1..])
  }

  lemma {:induction false} HolesConcat(a: Template, b: Template)
    ensures Holes(a + b) == Holes(a) + Holes(b)
    decreases |a|
  {
    if |a| == 0 {
      assert a + b == b;
    } else {
      HolesConcat(a[1..], b);
      assert (a + b)[1..] == a[1..] + b;
    }
  }

  lemma HolesSingle(x: Segment)
    ensures Holes([x]) == if x.Hole? then {x.name} else {}
  {
    assert [x][1..] == [];
  }

  lemma {:induction false} HolesMember(t: Template, k: nat)
    requires k < |t| && t[k].Hole?
    ensures t[k].name in Holes(t)
    decreases k
  {
    if k > 0 {
      HolesMember(t[1..], k - 1);
    }
  }

  /** `t.format(**env)`: every hole replaced by its binding, scanning left to
      right. The first hole without a binding raises `KeyError` carrying its
      name. Bindings that no hole uses are ignored, as `format` ignores
      unused keyword arguments. */
  function Render(t: Template, env: Bindings): (r: Result<string, string>)
    ensures r.Ok? <==> Holes(t) <= env.Keys
    ensures r.Err? ==> r.error in Holes(t) && r.error !in env.Keys
    decreases |t|
  {
    if |t| == 0 then Ok("")
    else
      var rest := Render(t[1..], env);
      match t[0]
      case Lit(s) =>
        if rest.Ok? then Ok(s + rest.value) else rest
      case Hole(n) =>
        if n !in env then Err(n)
        else if rest.Ok? then Ok(env[n] + rest.value) else rest
  }

  /** A successful render contains the binding of every hole. */
  lemma {:induction false} RenderContainsBinding(t: Template, env: Bindings, name: string)
    requires Render(t, env).Ok? && name in Holes(t)
    ensures name in env && Contains(Render(t, env).value, env[name])
    decreases |t|
  {
    var rest := Render(t[1..], env);
    if t[0].Hole? && t[0].name == name {
      ContainsSelf(env[name]);
      ContainsLeft(env[name], rest.value, env[name]);
    } else {
      RenderContainsBinding(t[1..], env, name);
      ContainsRight(Render(t, env).value[..|Render(t, env).value| - |rest.value|], rest.value, env[name]);
      assert Render(t, env).value == Render(t, env).value[..|Render(t, env).value| - |rest.value|] + rest.value;
    }
  }

  /** Retrying with fewer bindings cannot rescue a render: if `t` misses a
      binding of `env`, it misses one of every sub-map of `env`, and the
      retry raises on the same hole or an earlier one. */
  lemma {:induction false} RetryCannotRescue(t: Template, env: Bindings, fewer: Bindings)
    requires fewer.Keys <= env.Keys
    requires Render(t, env).Err?
    ensures Render(t, fewer).Err?
  {
    var missing := Render(t, env).error;
    assert missing in Holes(t) && missing !in fewer.Keys;
  }

  /** Two binding maps that agree on the holes of `t` render it alike. */
  lemma {:induction false} RenderDependsOnHolesOnly(t: Template, env: Bindings, other: Bindings)
    requires forall n | n in Holes(t) :: (n in env <==> n in other) && (n in env ==> env[n] == other[n])
    ensures Render(t, env) == Render(t, other)
    decreases |t|
  {
    if |t| > 0 {
      RenderDependsOnHolesOnly(t[1..], env, other);
    }
  }
}
