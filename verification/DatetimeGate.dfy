/** The response-datetime gate (`infra/checks/check_response_datetime_utc.py`):
    `_unwrap_response_model` and `_datetime_field_paths` over models that may refer to each
    other in cycles. */
module DatetimeGate {
  import opened Basics

  datatype Origin = ListOf | TupleOf | OtherGeneric

  /** A field annotation: a datetime type, a model, another plain type, or a generic. */
  datatype Ann = DateTime | Model(id: nat) | Plain | Generic(origin: Origin, args: seq<Ann>)

  datatype Field = Field(name: string, ann: Ann)

  type Registry = map<nat, seq<Field>>

  // ---------------------------------------------------------------- annotations

  /** `_is_datetime_type` */
  predicate IsDatetime(ann: Ann) {
    match ann
    case DateTime => true
    case Model(_) => false
    case Plain => false
    case Generic(_, args) => exists a | a in args :: IsDatetime(a)
  }

  /** `_unwrap_response_model` */
  function Unwrap(ann: Ann): seq<nat> {
    match ann
    case DateTime => []
    case Model(id) => [id]
    case Plain => []
    case Generic(_, args) => UnwrapAll(args)
  }

  function UnwrapAll(args: seq<Ann>): seq<nat> {
    if args == [] then [] else Unwrap(args[0]) + UnwrapAll(args[1..])
  }

  lemma {:induction false} UnwrapAllHas(args: seq<Ann>, i: nat)
    requires i < |args|
    ensures forall n | n in Unwrap(args[i]) :: n in UnwrapAll(args)
  {
    if i > 0 { UnwrapAllHas(args[1..], i - 1); }
  }

  method UnwrapResponseModel(ann: Ann) returns (out: seq<nat>)
    ensures out == Unwrap(ann)
    decreases ann
  {
    match ann
    case DateTime => return [];
    case Model(id) => return [id];
    case Plain => return [];
    case Generic(_, args) =>
      out := [];
      for k := 0 to |args|
        invariant UnwrapAll(args) == out + UnwrapAll(args[k..])
      {
        assert args[k..][1..] == args[k + 1..];
        var more := UnwrapResponseModel(args[k]);
        SeqAssoc(out, more, UnwrapAll(args[k + 1..]));
        out := out + more;
      }
  }

  // ---------------------------------------------------------------- the walk

  /** Every model a field mentions is registered. */
  ghost predicate Complete(reg: Registry) {
    forall m, i, n | m in reg && 0 <= i < |reg[m]| && n in Unwrap(reg[m][i].ann) :: n in reg
  }

  ghost predicate AllIn(ms: seq<nat>, reg: Registry) {
    forall n | n in ms :: n in reg
  }

  ghost predicate FieldsIn(fs: seq<Field>, reg: Registry) {
    forall i | 0 <= i < |fs| :: AllIn(Unwrap(fs[i].ann), reg)
  }

  function Dotted(prefix: string, name: string): string {
    if prefix == "" then name else prefix + "." + name
  }

  /** The models the second inner loop visits: those inside a list or tuple. */
  function Elements(ann: Ann): seq<nat> {
    if ann.Generic? && (ann.origin.ListOf? || ann.origin.TupleOf?) then UnwrapAll(ann.args) else []
  }

  /** `_datetime_field_paths`.  `seen` is the set of models on the current path, not of all
      models visited. */
  function Paths(reg: Registry, m: nat, prefix: string, seen: set<nat>): seq<string>
    requires Complete(reg) && m in reg
    decreases |reg.Keys - seen|, 2, 0
  {
    if m in seen then []
    else
      Shrinks(reg, m, seen);
      FieldPaths(reg, reg[m], prefix, seen + {m})
  }

  function FieldPaths(reg: Registry, fs: seq<Field>, prefix: string, seen: set<nat>): seq<string>
    requires Complete(reg) && FieldsIn(fs, reg)
    decreases |reg.Keys - seen|, 4, |fs|
  {
    if fs == [] then []
    else
      OnePath(reg, fs[0], prefix, seen) + FieldPaths(reg, fs[1..], prefix, seen)
  }

  function OnePath(reg: Registry, f: Field, prefix: string, seen: set<nat>): seq<string>
    requires Complete(reg) && AllIn(Unwrap(f.ann), reg)
    decreases |reg.Keys - seen|, 4, 0
  {
    var path := Dotted(prefix, f.name);
    if IsDatetime(f.ann) then [path]
    else NestedPaths(reg, Unwrap(f.ann), path, seen) + NestedPaths(reg, Elements(f.ann), path + "[]", seen)
  }

  function NestedPaths(reg: Registry, ms: seq<nat>, path: string, seen: set<nat>): seq<string>
    requires Complete(reg) && AllIn(ms, reg)
    decreases |reg.Keys - seen|, 3, |ms|
  {
    if ms == [] then []
    else Paths(reg, ms[0], path, seen) + NestedPaths(reg, ms[1..], path, seen)
  }

  lemma Shrinks(reg: Registry, m: nat, seen: set<nat>)
    requires m in reg && m !in seen
    ensures |reg.Keys - (seen + {m})| < |reg.Keys - seen|
  {
    assert reg.Keys - seen == (reg.Keys - (seen + {m})) + {m};
  }

  /** The walk as written, appending to a local list. */
  method DatetimeFieldPaths(reg: Registry, m: nat, prefix: string, seen: set<nat>) returns (paths: seq<string>)
    requires Complete(reg) && m in reg
    ensures paths == Paths(reg, m, prefix, seen)
    decreases |reg.Keys - seen|, 1
  {
    paths := [];
    if m in seen {
      return;
    }
    Shrinks(reg, m, seen);
    var here := seen + {m};
    var fields := reg[m];
    for k := 0 to |fields|
      invariant FieldPaths(reg, fields, prefix, here) == paths + FieldPaths(reg, fields[k..], prefix, here)
    {
      assert fields[k..][1..] == fields[k + 1..];
      var more := VisitField(reg, fields[k], prefix, here);
      SeqAssoc(paths, more, FieldPaths(reg, fields[k + 1..], prefix, here));
      paths := paths + more;
    }
  }

  /** The body of the loop over fields. */
  method VisitField(reg: Registry, f: Field, prefix: string, seen: set<nat>) returns (paths: seq<string>)
    requires Complete(reg) && AllIn(Unwrap(f.ann), reg)
    ensures paths == OnePath(reg, f, prefix, seen)
    decreases |reg.Keys - seen|, 3
  {
    var path := Dotted(prefix, f.name);
    var ann := f.ann;
    if IsDatetime(ann) {
      return [path];
    }
    var nested := UnwrapResponseModel(ann);
    paths := VisitNested(reg, nested, path, seen);
    if ann.Generic? && (ann.origin.ListOf? || ann.origin.TupleOf?) {
      var inner := UnwrapResponseModel(Generic(OtherGeneric, ann.args));
      var elements := VisitNested(reg, inner, path + "[]", seen);
      paths := paths + elements;
    }
  }

  method VisitNested(reg: Registry, ms: seq<nat>, path: string, seen: set<nat>) returns (paths: seq<string>)
    requires Complete(reg) && AllIn(ms, reg)
    ensures paths == NestedPaths(reg, ms, path, seen)
    decreases |reg.Keys - seen|, 2
  {
    paths := [];
    for k := 0 to |ms|
      invariant NestedPaths(reg, ms, path, seen) == paths + NestedPaths(reg, ms[k..], path, seen)
    {
      assert ms[k..][1..] == ms[k + 1..];
      var more := DatetimeFieldPaths(reg, ms[k], path, seen);
      SeqAssoc(paths, more, NestedPaths(reg, ms[k + 1..], path, seen));
      paths := paths + more;
    }
  }

  // ---------------------------------------------------------------- reachability

  ghost predicate HasDatetime(reg: Registry, m: nat)
    requires m in reg
  {
    exists i :: 0 <= i < |reg[m]| && IsDatetime(reg[m][i].ann)
  }

  /** Model `b` is mentioned by a field of model `a`. */
  ghost predicate Edge(reg: Registry, a: nat, b: nat) {
    a in reg && b in reg && exists i :: 0 <= i < |reg[a]| && b in Unwrap(reg[a][i].ann)
  }

  ghost predicate Walk(reg: Registry, p: seq<nat>, avoid: set<nat>) {
    && |p| > 0
    && (forall i | 0 <= i < |p| :: p[i] in reg && p[i] !in avoid)
    && (forall i | 0 <= i < |p| - 1 :: Edge(reg, p[i], p[i + 1]))
  }

  /** A walk from `m` to a model with a datetime field. */
  ghost predicate Leads(reg: Registry, m: nat, p: seq<nat>, avoid: set<nat>) {
    Walk(reg, p, avoid) && p[0] == m && HasDatetime(reg, p[|p| - 1])
  }

  ghost predicate Reachable(reg: Registry, m: nat) {
    exists p :: Leads(reg, m, p, {})
  }

  lemma {:induction false} FieldFound(reg: Registry, fs: seq<Field>, prefix: string, seen: set<nat>, i: nat)
    requires Complete(reg) && FieldsIn(fs, reg) && i < |fs|
    requires OnePath(reg, fs[i], prefix, seen) != []
    ensures FieldPaths(reg, fs, prefix, seen) != []
    decreases |fs|
  {
    if i > 0 { FieldFound(reg, fs[1..], prefix, seen, i - 1); }
  }

  lemma {:induction false} NestedFound(reg: Registry, ms: seq<nat>, path: string, seen: set<nat>, n: nat)
    requires Complete(reg) && AllIn(ms, reg) && n in ms
    requires Paths(reg, n, path, seen) != []
    ensures NestedPaths(reg, ms, path, seen) != []
    decreases |ms|
  {
    if ms[0] != n { NestedFound(reg, ms[1..], path, seen, n); }
  }

  /** Cut a walk after the last visit to its first model. */
  lemma {:induction false} LastVisit(p: seq<nat>, m: nat) returns (k: nat)
    requires m in p
    ensures k < |p| && p[k] == m && forall i | k < i < |p| :: p[i] != m
    decreases |p|
  {
    k := |p| - 1;
    if p[k] != m {
      k := LastVisit(p[..|p| - 1], m);
    }
  }

  /** A datetime that can be reached without the models on the current path is found. */
  lemma {:induction false} Found(reg: Registry, m: nat, prefix: string, seen: set<nat>, p: seq<nat>)
    requires Complete(reg) && m in reg && Leads(reg, m, p, seen)
    ensures Paths(reg, m, prefix, seen) != []
    decreases |reg.Keys - seen|
  {
    Shrinks(reg, m, seen);
    var here := seen + {m};
    if HasDatetime(reg, m) {
      var i :| 0 <= i < |reg[m]| && IsDatetime(reg[m][i].ann);
      FieldFound(reg, reg[m], prefix, here, i);
    } else {
      var k := LastVisit(p, m);
      assert k < |p| - 1;
      var n := p[k + 1];
      assert Edge(reg, p[k], p[k + 1]);
      var i :| 0 <= i < |reg[m]| && n in Unwrap(reg[m][i].ann);
      var path := Dotted(prefix, reg[m][i].name);
      var q := p[k + 1..];
      assert Leads(reg, n, q, here);
      Found(reg, n, path, here, q);
      NestedFound(reg, Unwrap(reg[m][i].ann), path, here, n);
      FieldFound(reg, reg[m], prefix, here, i);
    }
  }

  lemma {:induction false} FieldBlame(reg: Registry, fs: seq<Field>, prefix: string, seen: set<nat>) returns (i: nat)
    requires Complete(reg) && FieldsIn(fs, reg) && FieldPaths(reg, fs, prefix, seen) != []
    ensures i < |fs| && OnePath(reg, fs[i], prefix, seen) != []
    decreases |fs|
  {
    if OnePath(reg, fs[0], prefix, seen) != [] {
      i := 0;
    } else {
      var j := FieldBlame(reg, fs[1..], prefix, seen);
      i := j + 1;
    }
  }

  lemma {:induction false} NestedBlame(reg: Registry, ms: seq<nat>, path: string, seen: set<nat>) returns (n: nat)
    requires Complete(reg) && AllIn(ms, reg) && NestedPaths(reg, ms, path, seen) != []
    ensures n in ms && Paths(reg, n, path, seen) != []
    decreases |ms|
  {
    if Paths(reg, ms[0], path, seen) != [] {
      n := ms[0];
    } else {
      n := NestedBlame(reg, ms[1..], path, seen);
    }
  }

  /** Whatever is reported is reachable. */
  lemma {:induction false} Blame(reg: Registry, m: nat, prefix: string, seen: set<nat>) returns (p: seq<nat>)
    requires Complete(reg) && m in reg && Paths(reg, m, prefix, seen) != []
    ensures Leads(reg, m, p, {})
    decreases |reg.Keys - seen|
  {
    Shrinks(reg, m, seen);
    var here := seen + {m};
    var i := FieldBlame(reg, reg[m], prefix, here);
    var f := reg[m][i];
    if IsDatetime(f.ann) {
      p := [m];
    } else {
      var path := Dotted(prefix, f.name);
      var n, q;
      if NestedPaths(reg, Unwrap(f.ann), path, here) != [] {
        n := NestedBlame(reg, Unwrap(f.ann), path, here);
        q := Blame(reg, n, path, here);
      } else {
        n := NestedBlame(reg, Elements(f.ann), path + "[]", here);
        q := Blame(reg, n, path + "[]", here);
      }
      assert n in Unwrap(f.ann);
      assert Edge(reg, m, n);
      p := [m] + q;
    }
  }

  /** The gate reports nothing iff no datetime-typed field is reachable through nested
      models, although `seen` only holds the models on the current path. */
  lemma EmptyIffUnreachable(reg: Registry, m: nat)
    requires Complete(reg) && m in reg
    ensures Paths(reg, m, "", {}) == [] <==> !Reachable(reg, m)
  {
    if Reachable(reg, m) {
      var p :| Leads(reg, m, p, {});
      Found(reg, m, "", {}, p);
    }
    if Paths(reg, m, "", {}) != [] {
      var p := Blame(reg, m, "", {});
    }
  }

  // ---------------------------------------------------------------- which fields are reported

  /** A field of `a` that is not itself datetime-typed mentions `b`: only such a field is
      walked into. */
  ghost predicate OpenEdge(reg: Registry, a: nat, b: nat) {
    a in reg && b in reg && exists i :: 0 <= i < |reg[a]| && !IsDatetime(reg[a][i].ann) && b in Unwrap(reg[a][i].ann)
  }

  /** A walk from `m` to `t` through open fields. */
  ghost predicate OpenWalk(reg: Registry, m: nat, p: seq<nat>, t: nat, avoid: set<nat>) {
    && |p| > 0 && p[0] == m && p[|p| - 1] == t
    && (forall i | 0 <= i < |p| :: p[i] in reg && p[i] !in avoid)
    && (forall i | 0 <= i < |p| - 1 :: OpenEdge(reg, p[i], p[i + 1]))
  }

  ghost predicate DatetimeAt(reg: Registry, t: nat, i: nat) {
    t in reg && i < |reg[t]| && IsDatetime(reg[t][i].ann)
  }

  lemma {:induction false} FieldHas(reg: Registry, fs: seq<Field>, prefix: string, seen: set<nat>, i: nat, path: string)
    requires Complete(reg) && FieldsIn(fs, reg) && i < |fs|
    requires path in OnePath(reg, fs[i], prefix, seen)
    ensures path in FieldPaths(reg, fs, prefix, seen)
    decreases |fs|
  {
    if i > 0 { FieldHas(reg, fs[1..], prefix, seen, i - 1, path); }
  }

  lemma {:induction false} NestedHas(reg: Registry, ms: seq<nat>, prefix: string, seen: set<nat>, n: nat, path: string)
    requires Complete(reg) && AllIn(ms, reg) && n in ms
    requires path in Paths(reg, n, prefix, seen)
    ensures path in NestedPaths(reg, ms, prefix, seen)
    decreases |ms|
  {
    if ms[0] != n { NestedHas(reg, ms[1..], prefix, seen, n, path); }
  }

  /** One field gone through: `bracket` for the second inner loop, over list elements. */
  datatype Step = Step(field: nat, bracket: bool, next: nat)

  /** Steps from `m` through open fields, to the datetime field `i` of a model, that visit no
      model twice and none of `seen`. */
  ghost predicate Trail(reg: Registry, m: nat, steps: seq<Step>, i: nat, seen: set<nat>)
    decreases |steps|
  {
    && m in reg && m !in seen
    && if steps == [] then i < |reg[m]| && IsDatetime(reg[m][i].ann)
       else
         && steps[0].field < |reg[m]| && !IsDatetime(reg[m][steps[0].field].ann)
         && steps[0].next in Mentioned(reg[m][steps[0].field].ann, steps[0].bracket)
         && Trail(reg, steps[0].next, steps[1..], i, seen + {m})
  }

  function Mentioned(ann: Ann, bracket: bool): seq<nat> {
    if bracket then Elements(ann) else Unwrap(ann)
  }

  function EndOf(m: nat, steps: seq<Step>): nat {
    if steps == [] then m else steps[|steps| - 1].next
  }

  /** The path below one field. */
  function Below(prefix: string, name: string, bracket: bool): string {
    Dotted(prefix, name) + if bracket then "[]" else ""
  }

  /** The dotted path of a trail. */
  ghost function Render(reg: Registry, m: nat, steps: seq<Step>, i: nat, prefix: string, seen: set<nat>): string
    requires Trail(reg, m, steps, i, seen)
    decreases |steps|
  {
    if steps == [] then Dotted(prefix, reg[m][i].name)
    else
      Render(reg, steps[0].next, steps[1..], i, Below(prefix, reg[m][steps[0].field].name, steps[0].bracket), seen + {m})
  }

  lemma NestedIsOne(reg: Registry, f: Field, prefix: string, seen: set<nat>, bracket: bool, path: string)
    requires Complete(reg) && AllIn(Unwrap(f.ann), reg) && !IsDatetime(f.ann)
    requires path in NestedPaths(reg, Mentioned(f.ann, bracket), Below(prefix, f.name, bracket), seen)
    ensures path in OnePath(reg, f, prefix, seen)
  {
    assert Below(prefix, f.name, false) == Dotted(prefix, f.name);
  }

  /** The path of every trail is reported. */
  lemma {:induction false} TrailReported(reg: Registry, m: nat, steps: seq<Step>, i: nat, prefix: string, seen: set<nat>)
    requires Complete(reg) && Trail(reg, m, steps, i, seen)
    ensures Render(reg, m, steps, i, prefix, seen) in Paths(reg, m, prefix, seen)
    decreases |steps|
  {
    Shrinks(reg, m, seen);
    var here := seen + {m};
    var path := Render(reg, m, steps, i, prefix, seen);
    if steps == [] {
      FieldHas(reg, reg[m], prefix, here, i, path);
    } else {
      var step := steps[0];
      var f := reg[m][step.field];
      var down := Below(prefix, f.name, step.bracket);
      TrailReported(reg, step.next, steps[1..], i, down, here);
      NestedHas(reg, Mentioned(f.ann, step.bracket), down, here, step.next, path);
      NestedIsOne(reg, f, prefix, here, step.bracket, path);
      FieldHas(reg, reg[m], prefix, here, step.field, path);
    }
  }

  /** From a walk to a trail with the same end: cut the loops. */
  lemma {:induction false} WalkHasTrail(reg: Registry, m: nat, seen: set<nat>, p: seq<nat>, t: nat, i: nat)
    returns (steps: seq<Step>)
    requires OpenWalk(reg, m, p, t, seen) && DatetimeAt(reg, t, i)
    ensures Trail(reg, m, steps, i, seen) && EndOf(m, steps) == t
    decreases |p|
  {
    var k := LastVisit(p, m);
    if k == |p| - 1 {
      steps := [];
    } else {
      var n := p[k + 1];
      assert OpenEdge(reg, p[k], p[k + 1]);
      var j :| 0 <= j < |reg[m]| && !IsDatetime(reg[m][j].ann) && n in Unwrap(reg[m][j].ann);
      var rest := WalkHasTrail(reg, n, seen + {m}, p[k + 1..], t, i);
      steps := [Step(j, false, n)] + rest;
      assert steps[1..] == rest;
    }
  }

  /** Every datetime field of a model that open fields lead to is reported, with the path of
      a trail to it, though models are visited at most once on a path. */
  lemma FieldReported(reg: Registry, m: nat, prefix: string, p: seq<nat>, t: nat, i: nat) returns (steps: seq<Step>)
    requires Complete(reg) && OpenWalk(reg, m, p, t, {}) && DatetimeAt(reg, t, i)
    ensures Trail(reg, m, steps, i, {}) && EndOf(m, steps) == t
    ensures Render(reg, m, steps, i, prefix, {}) in Paths(reg, m, prefix, {})
  {
    steps := WalkHasTrail(reg, m, {}, p, t, i);
    TrailReported(reg, m, steps, i, prefix, {});
  }

  lemma {:induction false} FieldWith(reg: Registry, fs: seq<Field>, prefix: string, seen: set<nat>, path: string) returns (i: nat)
    requires Complete(reg) && FieldsIn(fs, reg) && path in FieldPaths(reg, fs, prefix, seen)
    ensures i < |fs| && path in OnePath(reg, fs[i], prefix, seen)
    decreases |fs|
  {
    if path in OnePath(reg, fs[0], prefix, seen) {
      i := 0;
    } else {
      var j := FieldWith(reg, fs[1..], prefix, seen, path);
      i := j + 1;
    }
  }

  lemma {:induction false} NestedWith(reg: Registry, ms: seq<nat>, prefix: string, seen: set<nat>, path: string) returns (n: nat)
    requires Complete(reg) && AllIn(ms, reg) && path in NestedPaths(reg, ms, prefix, seen)
    ensures n in ms && path in Paths(reg, n, prefix, seen)
    decreases |ms|
  {
    if path in Paths(reg, ms[0], prefix, seen) {
      n := ms[0];
    } else {
      n := NestedWith(reg, ms[1..], prefix, seen, path);
    }
  }

  /** Every reported path is the path of a trail. */
  lemma {:induction false} ReportedHasTrail(reg: Registry, m: nat, prefix: string, seen: set<nat>, path: string)
    returns (steps: seq<Step>, i: nat)
    requires Complete(reg) && m in reg && path in Paths(reg, m, prefix, seen)
    ensures Trail(reg, m, steps, i, seen) && path == Render(reg, m, steps, i, prefix, seen)
    decreases |reg.Keys - seen|
  {
    Shrinks(reg, m, seen);
    var here := seen + {m};
    var j := FieldWith(reg, reg[m], prefix, here, path);
    var f := reg[m][j];
    if IsDatetime(f.ann) {
      steps, i := [], j;
    } else {
      var bracket := path !in NestedPaths(reg, Unwrap(f.ann), Dotted(prefix, f.name), here);
      var down := Below(prefix, f.name, bracket);
      assert down == if bracket then Dotted(prefix, f.name) + "[]" else Dotted(prefix, f.name);
      var n := NestedWith(reg, Mentioned(f.ann, bracket), down, here, path);
      var rest;
      rest, i := ReportedHasTrail(reg, n, down, here, path);
      steps := [Step(j, bracket, n)] + rest;
      assert steps[1..] == rest;
    }
  }

  /** The paths reported for a response model are exactly those of its trails. */
  lemma PathsAreTrails(reg: Registry, m: nat, path: string)
    requires Complete(reg) && m in reg
    ensures path in Paths(reg, m, "", {}) <==>
              exists steps, i :: Trail(reg, m, steps, i, {}) && Render(reg, m, steps, i, "", {}) == path
  {
    if path in Paths(reg, m, "", {}) {
      var steps, i := ReportedHasTrail(reg, m, "", {}, path);
    }
    if steps, i :| Trail(reg, m, steps, i, {}) && Render(reg, m, steps, i, "", {}) == path {
      TrailReported(reg, m, steps, i, "", {});
    }
  }

  /** The parts of a path: the names on the way, with `[]` where a list or tuple is entered. */
  ghost function Parts(reg: Registry, m: nat, steps: seq<Step>, i: nat, seen: set<nat>): seq<string>
    requires Trail(reg, m, steps, i, seen)
    decreases |steps|
  {
    if steps == [] then [reg[m][i].name]
    else
      [reg[m][steps[0].field].name + if steps[0].bracket then "[]" else ""]
      + Parts(reg, steps[0].next, steps[1..], i, seen + {m})
  }

  function JoinDots(parts: seq<string>): string {
    if parts == [] then "" else if |parts| == 1 then parts[0] else parts[0] + "." + JoinDots(parts[1..])
  }

  ghost predicate Named(reg: Registry) {
    forall m, i | m in reg && 0 <= i < |reg[m]| :: reg[m][i].name != ""
  }

  /** A path is its parts joined by dots, below a prefix if there is one. */
  lemma {:induction false} RenderIs(reg: Registry, m: nat, steps: seq<Step>, i: nat, prefix: string, seen: set<nat>)
    requires Named(reg) && Trail(reg, m, steps, i, seen)
    ensures var path := JoinDots(Parts(reg, m, steps, i, seen));
            Render(reg, m, steps, i, prefix, seen) == if prefix == "" then path else prefix + "." + path
    decreases |steps|
  {
    if steps != [] {
      var name := reg[m][steps[0].field].name;
      var part := name + if steps[0].bracket then "[]" else "";
      RenderIs(reg, steps[0].next, steps[1..], i, Below(prefix, name, steps[0].bracket), seen + {m});
      BelowIs(prefix, name, steps[0].bracket);
      var rest := Parts(reg, steps[0].next, steps[1..], i, seen + {m});
      JoinOneMore(part, rest);
      DotsAssociate(prefix, part, JoinDots(rest));
    }
  }

  lemma BelowIs(prefix: string, name: string, bracket: bool)
    ensures var part := name + if bracket then "[]" else "";
            Below(prefix, name, bracket) == if prefix == "" then part else prefix + "." + part
  {
  }

  lemma JoinOneMore(part: string, rest: seq<string>)
    requires rest != []
    ensures JoinDots([part] + rest) == part + "." + JoinDots(rest)
  {
    assert ([part] + rest)[1..] == rest;
  }

  lemma DotsAssociate(prefix: string, part: string, rest: string)
    ensures prefix + "." + part + "." + rest == prefix + "." + (part + "." + rest)
  {
  }

  /** A datetime below a field that is datetime-typed itself is not reported on its own: of
      `at: datetime | Inner` only `at` is. */
  lemma UnionHidesInner(at: string, inner: string)
    ensures var reg := map[0 := [Field(at, Generic(OtherGeneric, [DateTime, Model(1)]))], 1 := [Field(inner, DateTime)]];
            Complete(reg) && Paths(reg, 0, "", {}) == [at]
  {
    var ann := Generic(OtherGeneric, [DateTime, Model(1)]);
    var reg := map[0 := [Field(at, ann)], 1 := [Field(inner, DateTime)]];
    assert Unwrap(ann) == [1] by {
      assert [DateTime, Model(1)][1..] == [Model(1)];
      assert UnwrapAll([Model(1)]) == [1];
    }
    assert DateTime in ann.args && IsDatetime(ann);
    assert FieldPaths(reg, reg[0], "", {} + {0}) == OnePath(reg, reg[0][0], "", {} + {0}) + FieldPaths(reg, [], "", {} + {0});
  }

  // ---------------------------------------------------------------- what an annotation holds

  /** The annotation at a position of the tree. */
  function At(ann: Ann, position: seq<nat>): Option<Ann>
    decreases |position|
  {
    if position == [] then Some(ann)
    else if ann.Generic? && position[0] < |ann.args| then At(ann.args[position[0]], position[1..])
    else None
  }

  lemma {:induction false} AtInside(ann: Ann, i: nat, position: seq<nat>)
    requires ann.Generic? && i < |ann.args|
    ensures At(ann, [i] + position) == At(ann.args[i], position)
  {
    assert ([i] + position)[1..] == position;
  }

  lemma {:induction false} DatetimeFound(ann: Ann, position: seq<nat>)
    requires At(ann, position) == Some(DateTime)
    ensures IsDatetime(ann)
    decreases |position|
  {
    if position != [] {
      DatetimeFound(ann.args[position[0]], position[1..]);
      assert ann.args[position[0]] in ann.args;
    }
  }

  lemma {:induction false} DatetimePosition(ann: Ann) returns (position: seq<nat>)
    requires IsDatetime(ann)
    ensures At(ann, position) == Some(DateTime)
    decreases ann
  {
    if ann.DateTime? {
      position := [];
    } else {
      var a :| a in ann.args && IsDatetime(a);
      var i :| 0 <= i < |ann.args| && ann.args[i] == a;
      var rest := DatetimePosition(a);
      AtInside(ann, i, rest);
      position := [i] + rest;
    }
  }

  /** A field is datetime-typed iff a datetime stands anywhere in its annotation. */
  lemma IsDatetimeIff(ann: Ann)
    ensures IsDatetime(ann) <==> exists position :: At(ann, position) == Some(DateTime)
  {
    if IsDatetime(ann) { var position := DatetimePosition(ann); }
    if position :| At(ann, position) == Some(DateTime) { DatetimeFound(ann, position); }
  }

  lemma {:induction false} ModelFound(ann: Ann, position: seq<nat>, n: nat)
    requires At(ann, position) == Some(Model(n))
    ensures n in Unwrap(ann)
    decreases |position|
  {
    if position != [] {
      ModelFound(ann.args[position[0]], position[1..], n);
      UnwrapAllIff(ann.args, n);
    }
  }

  lemma {:induction false} ModelPosition(ann: Ann, n: nat) returns (position: seq<nat>)
    requires n in Unwrap(ann)
    ensures At(ann, position) == Some(Model(n))
    decreases ann
  {
    if ann.Model? {
      position := [];
    } else {
      UnwrapAllIff(ann.args, n);
      var i :| 0 <= i < |ann.args| && n in Unwrap(ann.args[i]);
      var rest := ModelPosition(ann.args[i], n);
      AtInside(ann, i, rest);
      position := [i] + rest;
    }
  }

  /** The models walked into are those anywhere in the annotation. */
  lemma UnwrapIff(ann: Ann, n: nat)
    ensures n in Unwrap(ann) <==> exists position :: At(ann, position) == Some(Model(n))
  {
    if n in Unwrap(ann) { var position := ModelPosition(ann, n); }
    if position :| At(ann, position) == Some(Model(n)) { ModelFound(ann, position, n); }
  }

  lemma {:induction false} UnwrapAllIff(args: seq<Ann>, n: nat)
    ensures n in UnwrapAll(args) <==> exists i :: 0 <= i < |args| && n in Unwrap(args[i])
  {
    if args != [] {
      UnwrapAllIff(args[1..], n);
      if i :| 0 <= i < |args| && n in Unwrap(args[i]) {
        if i > 0 { assert n in Unwrap(args[1..][i - 1]); }
      }
      if i :| 0 <= i < |args| - 1 && n in Unwrap(args[1..][i]) {
        assert args[i + 1] == args[1..][i];
      }
    }
  }

  /** The second inner loop goes over the models of a list or tuple, and of nothing else. */
  lemma ElementsIff(ann: Ann, n: nat)
    ensures n in Elements(ann) <==>
              ann.Generic? && (ann.origin == ListOf || ann.origin == TupleOf) && n in Unwrap(ann)
  {
  }
}
