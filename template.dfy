/**
 * Placeholder substitution (backend/internal/fileutil/template.go).
 *
 * ParseTemplate runs strings.ReplaceAll once per entry of a Go map, so the
 * order of the replacements is whatever order the map iteration produced.
 * The model takes that order as a parameter and relates the fold to a
 * single left-to-right reference substitution, `Substitute`, which makes the
 * result independent of the order whenever keys and values hold no braces
 * and the template's braces do not nest.
 */
module Template {
  import opened Strings

  function Placeholder(key: string): (p: string)
    ensures |p| == |key| + 2 && p[0] == '{' && p[|p| - 1] == '}' && p[1..|p| - 1] == key
  {
    "{" + key + "}"
  }

  /** The loop of ParseTemplate, visiting the keys of `vars` in `order`. A
      template without an opening brace holds no placeholder and is
      returned as it is. */
  function ParseTemplate(template: string, vars: map<string, string>, order: seq<string>): (r: string)
    requires forall k :: k in order ==> k in vars
    ensures '{' !in template ==> r == template
    decreases |order|
  {
    if order == [] then template
    else
      var next := ReplaceAll(template, Placeholder(order[0]), vars[order[0]]);
      if '{' !in template then
        ReplaceAllAbsent(template, Placeholder(order[0]), vars[order[0]]);
        ParseTemplate(next, vars, order[1..])
      else ParseTemplate(next, vars, order[1..])
  }

  /** `order` is one possible iteration order of the map: each key exactly once. */
  predicate IsIterationOrder(order: seq<string>, vars: map<string, string>)
  {
    (forall k :: k in order ==> k in vars) && (forall k :: k in vars ==> k in order) &&
    (forall i, j :: 0 <= i < j < |order| ==> order[i] != order[j])
  }

  predicate BraceFree(s: string)
  {
    '{' !in s && '}' !in s
  }

  predicate BraceFreeVars(vars: map<string, string>)
  {
    forall k :: k in vars ==> BraceFree(k) && BraceFree(vars[k])
  }

  // ---------------------------------------------------------------------------
  // Reference substitution
  // ---------------------------------------------------------------------------

  /** One left-to-right pass: a '{' whose text up to the next '}' names a key
      becomes that key's value; every other character is copied. */
  function Substitute(t: string, vars: map<string, string>): string
    decreases |t|
  {
    if t == [] then []
    else if t[0] == '{' then
      match IndexOfChar(t[1..], '}')
      case Some(j) =>
        if t[1..j + 1] in vars then vars[t[1..j + 1]] + Substitute(t[j + 2..], vars)
        else "{" + Substitute(t[1..], vars)
      case None => "{" + Substitute(t[1..], vars)
    else [t[0]] + Substitute(t[1..], vars)
  }

  /** Braces do not nest: each '{' is closed by a '}' before any further '{',
      or is never closed and no '{' follows it. */
  predicate FlatBraces(t: string)
    decreases |t|
  {
    if t == [] then true
    else if t[0] == '{' then
      match IndexOfChar(t[1..], '}')
      case Some(j) => '{' !in t[1..j + 1] && FlatBraces(t[j + 2..])
      case None => '{' !in t[1..]
    else FlatBraces(t[1..])
  }

  /** Every brace of the template belongs to a placeholder that names a key. */
  predicate AllPlaceholdersKnown(t: string, vars: map<string, string>)
    decreases |t|
  {
    if t == [] then true
    else if t[0] == '{' then
      match IndexOfChar(t[1..], '}')
      case Some(j) => t[1..j + 1] in vars && AllPlaceholdersKnown(t[j + 2..], vars)
      case None => false
    else t[0] != '}' && AllPlaceholdersKnown(t[1..], vars)
  }

  // ---------------------------------------------------------------------------
  // Facts about the reference
  // ---------------------------------------------------------------------------

  /** Text without an opening brace is copied. */
  lemma {:induction false} SubstituteCopies(u: string, w: string, vars: map<string, string>)
    requires '{' !in u
    ensures Substitute(u + w, vars) == u + Substitute(w, vars)
    decreases |u|
  {
    if u == [] {
      assert u + w == w;
    } else {
      assert (u + w)[0] == u[0];
      assert (u + w)[1..] == u[1..] + w;
      SubstituteCopies(u[1..], w, vars);
    }
  }

  /** With no variables, substitution is the identity. */
  lemma {:induction false} SubstituteNothing(t: string)
    ensures Substitute(t, map[]) == t
    decreases |t|
  {
    if t != [] {
      SubstituteNothing(t[1..]);
      if t[0] == '{' {
        assert Substitute(t, map[]) == "{" + Substitute(t[1..], map[]);
      }
    }
  }

  // ---------------------------------------------------------------------------
  // One ReplaceAll on a substituted text
  // ---------------------------------------------------------------------------

  lemma ReplaceAtPlaceholder(k: string, v: string, w: string)
    ensures ReplaceAll(Placeholder(k) + w, Placeholder(k), v) == v + ReplaceAll(w, Placeholder(k), v)
  {
    var p := Placeholder(k);
    assert (p + w)[..|p|] == p;
    assert (p + w)[|p|..] == w;
  }

  /** Two different brace-free placeholders differ at some position both have. */
  lemma PlaceholdersDiffer(name: string, k: string)
    requires BraceFree(name) && BraceFree(k) && name != k
    ensures exists i :: 0 <= i < |Placeholder(name)| && i < |Placeholder(k)| && Placeholder(name)[i] != Placeholder(k)[i]
  {
    var pn := Placeholder(name);
    var pk := Placeholder(k);
    if |name| == |k| {
      var j :| 0 <= j < |k| && name[j] != k[j];
      assert pn[j + 1] == name[j] && pk[j + 1] == k[j];
    } else if |name| < |k| {
      assert pn[|name| + 1] == '}';
      assert pk[|name| + 1] == k[|name|];
    } else {
      assert pn[|k| + 1] == name[|k|];
      assert pk[|k| + 1] == '}';
    }
  }

  /** A different brace-free placeholder is not a match and is copied whole. */
  lemma ReplaceAtOtherPlaceholder(name: string, k: string, v: string, w: string)
    requires BraceFree(name) && BraceFree(k) && name != k
    ensures ReplaceAll(Placeholder(name) + w, Placeholder(k), v) == Placeholder(name) + ReplaceAll(w, Placeholder(k), v)
  {
    var p := Placeholder(k);
    var s := Placeholder(name) + w;
    var a := name + "}";
    assert s == "{" + (a + w);
    if |s| < |p| {
      assert ReplaceAll(w, p, v) == w;
    } else {
      PlaceholderNoMatch(name, k, w);
      assert s[1..] == a + w;
      ReplaceAllAppend(a, w, p, v);
      calc {
        ReplaceAll(s, p, v);
        [s[0]] + ReplaceAll(a + w, p, v);
        [s[0]] + (a + ReplaceAll(w, p, v));
        Placeholder(name) + ReplaceAll(w, p, v);
      }
    }
  }

  lemma PlaceholderNoMatch(name: string, k: string, w: string)
    requires BraceFree(name) && BraceFree(k) && name != k
    requires |Placeholder(name) + w| >= |Placeholder(k)|
    ensures (Placeholder(name) + w)[..|Placeholder(k)|] != Placeholder(k)
  {
    var p := Placeholder(k);
    var s := Placeholder(name) + w;
    PlaceholdersDiffer(name, k);
    var i :| 0 <= i < |Placeholder(name)| && i < |p| && Placeholder(name)[i] != p[i];
    assert s[..|p|][i] == s[i];
  }

  /** An opening brace that is never closed is not a match. */
  lemma ReplaceAtUnclosed(u: string, k: string, v: string)
    requires BraceFree(u)
    ensures ReplaceAll("{" + u, Placeholder(k), v) == "{" + u
  {
    var p := Placeholder(k);
    var s := "{" + u;
    if |s| >= |p| {
      assert s[|p| - 1] == u[|p| - 2];
      assert s[..|p|][|p| - 1] == s[|p| - 1];
      assert s[..|p|] != p;
      assert s[1..] == u;
      ReplaceAllAbsent(u, p, v);
    }
  }

  /** Replacing the placeholder of a new key in a substituted text is the same
      as substituting with that key added. */
  lemma {:induction false} ReplaceAfterSubstitute(t: string, vars: map<string, string>, k: string, v: string)
    requires BraceFreeVars(vars) && BraceFree(k) && BraceFree(v) && k !in vars
    requires FlatBraces(t)
    ensures ReplaceAll(Substitute(t, vars), Placeholder(k), v) == Substitute(t, vars[k := v])
    decreases |t|
  {
    if t == [] {
    } else if t[0] != '{' {
      ReplaceAfterSubstitute(t[1..], vars, k, v);
      StepPlain(t, vars, k, v);
    } else {
      match IndexOfChar(t[1..], '}')
      case None =>
        StepUnclosed(t, vars, k, v);
      case Some(j) =>
        ReplaceAfterSubstitute(t[j + 2..], vars, k, v);
        StepPlaceholder(t, j, vars, k, v);
    }
  }

  lemma StepPlain(t: string, vars: map<string, string>, k: string, v: string)
    requires t != [] && t[0] != '{'
    requires ReplaceAll(Substitute(t[1..], vars), Placeholder(k), v) == Substitute(t[1..], vars[k := v])
    ensures ReplaceAll(Substitute(t, vars), Placeholder(k), v) == Substitute(t, vars[k := v])
  {
    ReplaceAllAppend([t[0]], Substitute(t[1..], vars), Placeholder(k), v);
  }

  lemma StepUnclosed(t: string, vars: map<string, string>, k: string, v: string)
    requires t != [] && t[0] == '{' && IndexOfChar(t[1..], '}').None? && FlatBraces(t)
    ensures ReplaceAll(Substitute(t, vars), Placeholder(k), v) == Substitute(t, vars[k := v])
  {
    var u := t[1..];
    assert BraceFree(u);
    SubstituteCopies(u, [], vars);
    SubstituteCopies(u, [], vars[k := v]);
    assert u + [] == u;
    assert Substitute(t, vars) == "{" + u;
    assert Substitute(t, vars[k := v]) == "{" + u;
    ReplaceAtUnclosed(u, k, v);
  }

  lemma StepPlaceholder(t: string, j: nat, vars: map<string, string>, k: string, v: string)
    requires BraceFreeVars(vars) && BraceFree(k) && BraceFree(v) && k !in vars
    requires t != [] && t[0] == '{' && IndexOfChar(t[1..], '}') == Some(j) && FlatBraces(t)
    requires ReplaceAll(Substitute(t[j + 2..], vars), Placeholder(k), v) == Substitute(t[j + 2..], vars[k := v])
    ensures ReplaceAll(Substitute(t, vars), Placeholder(k), v) == Substitute(t, vars[k := v])
  {
    var p := Placeholder(k);
    var vars' := vars[k := v];
    var name := t[1..j + 1];
    var rest := t[j + 2..];
    SubstituteAtPlaceholder(t, j, vars);
    SubstituteAtPlaceholder(t, j, vars');
    if name in vars {
      ReplaceAllAppend(vars[name], Substitute(rest, vars), p, v);
    } else if name == k {
      ReplaceAtPlaceholder(k, v, Substitute(rest, vars));
    } else {
      ReplaceAtOtherPlaceholder(name, k, v, Substitute(rest, vars));
    }
  }

  /** How the reference treats a closed, non-nested placeholder. */
  lemma SubstituteAtPlaceholder(t: string, j: nat, vars: map<string, string>)
    requires t != [] && t[0] == '{' && IndexOfChar(t[1..], '}') == Some(j) && FlatBraces(t)
    ensures BraceFree(t[1..j + 1])
    ensures t[1..j + 1] in vars ==> Substitute(t, vars) == vars[t[1..j + 1]] + Substitute(t[j + 2..], vars)
    ensures t[1..j + 1] !in vars ==> Substitute(t, vars) == Placeholder(t[1..j + 1]) + Substitute(t[j + 2..], vars)
  {
    PlaceholderName(t, j);
    if t[1..j + 1] !in vars {
      UnknownPlaceholderCopied(t, j, vars);
    }
  }

  /** The name between a brace and the first closing brace holds no brace. */
  lemma PlaceholderName(t: string, j: nat)
    requires t != [] && t[0] == '{' && IndexOfChar(t[1..], '}') == Some(j) && FlatBraces(t)
    ensures BraceFree(t[1..j + 1])
    ensures t[1..] == (t[1..j + 1] + "}") + t[j + 2..]
  {
    assert t[1..][..j] == t[1..j + 1];
  }

  lemma UnknownPlaceholderCopied(t: string, j: nat, vars: map<string, string>)
    requires t != [] && t[0] == '{' && IndexOfChar(t[1..], '}') == Some(j)
    requires BraceFree(t[1..j + 1]) && t[1..] == (t[1..j + 1] + "}") + t[j + 2..]
    requires t[1..j + 1] !in vars
    ensures Substitute(t, vars) == Placeholder(t[1..j + 1]) + Substitute(t[j + 2..], vars)
  {
    var name := t[1..j + 1];
    var rest := t[j + 2..];
    UnknownHead(t, j, vars);
    SubstituteCopies(name + "}", rest, vars);
    PlaceholderFront(name, Substitute(rest, vars));
  }

  /** An unknown name's opening brace is copied and the scan goes on after it. */
  lemma UnknownHead(t: string, j: nat, vars: map<string, string>)
    requires t != [] && t[0] == '{' && IndexOfChar(t[1..], '}') == Some(j)
    requires t[1..j + 1] !in vars
    ensures Substitute(t, vars) == "{" + Substitute(t[1..], vars)
  {
  }

  lemma PlaceholderFront(name: string, s: string)
    ensures "{" + ((name + "}") + s) == Placeholder(name) + s
  {
  }

  // ---------------------------------------------------------------------------
  // The fold equals the reference, whatever the order
  // ---------------------------------------------------------------------------

  lemma {:induction false} FoldIsSubstitute(t: string, done: map<string, string>, vars: map<string, string>, order: seq<string>)
    requires BraceFreeVars(vars) && FlatBraces(t)
    requires forall i, j :: 0 <= i < j < |order| ==> order[i] != order[j]
    requires forall k :: k in order ==> k in vars && k !in done
    requires forall k :: k in done ==> k in vars && done[k] == vars[k]
    requires forall k :: k in vars ==> k in done || k in order
    ensures ParseTemplate(Substitute(t, done), vars, order) == Substitute(t, vars)
    decreases |order|
  {
    if order == [] {
      assert done == vars;
    } else {
      var k := order[0];
      assert BraceFreeVars(done);
      ReplaceAfterSubstitute(t, done, k, vars[k]);
      assert forall i :: 1 <= i < |order| ==> order[i] != k;
      FoldIsSubstitute(t, done[k := vars[k]], vars, order[1..]);
    }
  }

  /** Under brace-free keys and values and non-nesting braces, every
      placeholder `{k}` naming a key is replaced by `vars[k]`, every other
      character is kept, and the iteration order does not matter. */
  lemma ParseTemplateIsSubstitute(t: string, vars: map<string, string>, order: seq<string>)
    requires IsIterationOrder(order, vars)
    requires BraceFreeVars(vars) && FlatBraces(t)
    ensures ParseTemplate(t, vars, order) == Substitute(t, vars)
  {
    SubstituteNothing(t);
    FoldIsSubstitute(t, map[], vars, order);
  }

  lemma OrderIndependent(t: string, vars: map<string, string>, order1: seq<string>, order2: seq<string>)
    requires IsIterationOrder(order1, vars) && IsIterationOrder(order2, vars)
    requires BraceFreeVars(vars) && FlatBraces(t)
    ensures ParseTemplate(t, vars, order1) == ParseTemplate(t, vars, order2)
  {
    ParseTemplateIsSubstitute(t, vars, order1);
    ParseTemplateIsSubstitute(t, vars, order2);
  }

  /** Brace-free values alone do not make the order irrelevant: the template's
      own braces can wrap a substituted value into a new placeholder. */
  lemma NestedBracesOrderMatters()
    ensures var vars := map["a" := "b", "b" := "X"];
            ParseTemplate("{{a}}", vars, ["a", "b"]) == "X" &&
            ParseTemplate("{{a}}", vars, ["b", "a"]) == "{b}"
  {
    var pa := Placeholder("a");
    var pb := Placeholder("b");
    // a first: "{{a}}" becomes "{b}", which b then turns into "X"
    assert "{{a}}"[..3] != pa;
    assert "{{a}}"[1..] == pa + "}";
    ReplaceAtPlaceholder("a", "b", "}");
    assert ReplaceAll("}", pa, "b") == "}";
    assert ReplaceAll("{{a}}", pa, "b") == "{b}";
    assert "{b}" == pb + [];
    ReplaceAtPlaceholder("b", "X", []);
    assert ReplaceAll("{b}", pb, "X") == "X";
    // b first: nothing matches, then a gives "{b}"
    assert "{{a}}"[..3] != pb;
    ReplaceAtOtherPlaceholder("a", "b", "X", "}");
    assert ReplaceAll("}", pb, "X") == "}";
    assert ReplaceAll("{{a}}", pb, "X") == "{{a}}";
  }

  // ---------------------------------------------------------------------------
  // Identity and brace-free results
  // ---------------------------------------------------------------------------

  /** With no variables, or a template without '{', the result is the template. */
  lemma {:induction false} ParseTemplateIdentity(t: string, vars: map<string, string>, order: seq<string>)
    requires forall k :: k in order ==> k in vars
    requires vars == map[] || '{' !in t
    ensures ParseTemplate(t, vars, order) == t
    decreases |order|
  {
    if order != [] {
      assert order[0] in vars;
      ReplaceAllAbsent(t, Placeholder(order[0]), vars[order[0]]);
      ParseTemplateIdentity(t, vars, order[1..]);
    }
  }

  lemma {:induction false} KnownPlaceholdersVanish(t: string, vars: map<string, string>)
    requires BraceFreeVars(vars) && AllPlaceholdersKnown(t, vars)
    ensures FlatBraces(t) && BraceFree(Substitute(t, vars))
    decreases |t|
  {
    if t != [] {
      if t[0] == '{' {
        match IndexOfChar(t[1..], '}')
        case Some(j) =>
          var name := t[1..j + 1];
          assert t[1..][..j] == name;
          KnownPlaceholdersVanish(t[j + 2..], vars);
          assert Substitute(t, vars) == vars[name] + Substitute(t[j + 2..], vars);
      } else {
        KnownPlaceholdersVanish(t[1..], vars);
      }
    }
  }

  /** When every brace of the template belongs to a placeholder naming a key,
      and no key or value holds a brace, no brace survives, whatever the order. */
  lemma ParseTemplateNoBraces(t: string, vars: map<string, string>, order: seq<string>)
    requires IsIterationOrder(order, vars)
    requires BraceFreeVars(vars) && AllPlaceholdersKnown(t, vars)
    ensures BraceFree(ParseTemplate(t, vars, order))
  {
    KnownPlaceholdersVanish(t, vars);
    ParseTemplateIsSubstitute(t, vars, order);
  }

  /** A placeholder whose name is not a key survives every replacement verbatim. */
  lemma {:induction false} UnknownPlaceholderKept(name: string, vars: map<string, string>, order: seq<string>)
    requires forall k :: k in order ==> k in vars
    requires BraceFree(name) && name !in vars && forall k :: k in vars ==> BraceFree(k)
    ensures ParseTemplate(Placeholder(name), vars, order) == Placeholder(name)
    decreases |order|
  {
    if order != [] {
      var k := order[0];
      ReplaceAtOtherPlaceholder(name, k, vars[k], []);
      assert Placeholder(name) + [] == Placeholder(name);
      assert ReplaceAll([], Placeholder(k), vars[k]) == [];
      UnknownPlaceholderKept(name, vars, order[1..]);
    }
  }
}
