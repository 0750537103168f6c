/** Parity suites: validation, the workload cell matrix, and the slugs that key its measurements. */
module Suites {
  import opened Common
  import opened Decimal

  const SUITE_SCHEMA_VERSION: nat := 1

  datatype Role = Subject | Competitor | Ceiling

  /** `command`, `warmup` and `audit` are the command lines; the fields that only steer the run are not modelled. */
  datatype Target = Target(
    name: string, role: Role, profile: string,
    command: seq<string>, warmup: Option<seq<string>>, audit: Option<seq<seq<string>>>)

  datatype Workload = Workload(
    operations: seq<string>, payloadSizes: seq<nat>, concurrency: seq<nat>, durationSeconds: nat, repetitions: nat)

  datatype Gates = Gates(
    throughputRatioMinimum: real, p99RatioMaximum: real, tolerancePercent: real, maximumFailureRate: real,
    required: bool)

  datatype Suite = Suite(
    version: nat, title: string, profiles: seq<string>, targets: seq<Target>, workload: Workload, gates: Gates)

  datatype Cell = Cell(operation: string, payloadSize: nat, concurrency: nat)

  // ---- Slugs ----

  function Slug(cell: Cell): string {
    cell.operation + "-" + Print(cell.payloadSize) + "-c" + Print(cell.concurrency)
  }

  /** A run of digits behind a non-digit is determined by the whole text. */
  lemma TrailingDigits(front: string, mark: char, digits: string, front': string, mark': char, digits': string)
    requires !IsDigit(mark) && !IsDigit(mark') && AllDigits(digits) && AllDigits(digits')
    requires front + [mark] + digits == front' + [mark'] + digits'
    ensures front == front' && mark == mark' && digits == digits'
  {
    var s, n, n' := front + [mark] + digits, |front|, |front'|;
    assert s[n] == mark && s[n'] == mark';
    assert s[n + 1..] == digits && s[n' + 1..] == digits';
    assert forall k :: n < k < |s| ==> s[k] == digits[k - n - 1];
    assert forall k :: n' < k < |s| ==> s[k] == digits'[k - n' - 1];
    assert s[..n] == front && s[..n'] == front';
  }

  lemma SlugParts(cell: Cell)
    ensures Slug(cell) == (cell.operation + "-" + Print(cell.payloadSize) + "-") + ['c'] + Print(cell.concurrency)
  {
    assert "-c" == "-" + ['c'];
  }

  /** Operations may hold dashes and digits, yet different cells never share a slug. */
  lemma SlugInjective(a: Cell, b: Cell)
    requires Slug(a) == Slug(b)
    ensures a == b
  {
    var front, front' := a.operation + "-" + Print(a.payloadSize), b.operation + "-" + Print(b.payloadSize);
    SlugParts(a);
    SlugParts(b);
    TrailingDigits(front + "-", 'c', Print(a.concurrency), front' + "-", 'c', Print(b.concurrency));
    assert (front + "-")[..|front|] == front && (front' + "-")[..|front'|] == front';
    TrailingDigits(a.operation, '-', Print(a.payloadSize), b.operation, '-', Print(b.payloadSize));
    PrintInjective(a.payloadSize, b.payloadSize);
    PrintInjective(a.concurrency, b.concurrency);
  }

  // ---- Cells ----

  function Row(operation: string, size: nat, concurrency: seq<nat>): seq<Cell> {
    seq(|concurrency|, k requires 0 <= k < |concurrency| => Cell(operation, size, concurrency[k]))
  }

  function Plane(operation: string, sizes: seq<nat>, concurrency: seq<nat>): seq<Cell> {
    if sizes == [] then []
    else Plane(operation, sizes[..|sizes| - 1], concurrency) + Row(operation, sizes[|sizes| - 1], concurrency)
  }

  function Matrix(operations: seq<string>, sizes: seq<nat>, concurrency: seq<nat>): seq<Cell> {
    if operations == [] then []
    else
      Matrix(operations[..|operations| - 1], sizes, concurrency)
      + Plane(operations[|operations| - 1], sizes, concurrency)
  }

  function CellsOf(w: Workload): seq<Cell> { Matrix(w.operations, w.payloadSizes, w.concurrency) }

  lemma {:induction false} PlaneMembers(operation: string, sizes: seq<nat>, concurrency: seq<nat>, c: Cell)
    ensures c in Plane(operation, sizes, concurrency)
            <==> c.operation == operation && c.payloadSize in sizes && c.concurrency in concurrency
  {
    if sizes != [] {
      var last := |sizes| - 1;
      PlaneMembers(operation, sizes[..last], concurrency, c);
      assert sizes == sizes[..last] + [sizes[last]];
      RowMembers(operation, sizes[last], concurrency, c);
    }
  }

  lemma RowMembers(operation: string, size: nat, concurrency: seq<nat>, c: Cell)
    ensures c in Row(operation, size, concurrency)
            <==> c.operation == operation && c.payloadSize == size && c.concurrency in concurrency
  {
    if c.operation == operation && c.payloadSize == size && c.concurrency in concurrency {
      var k :| 0 <= k < |concurrency| && concurrency[k] == c.concurrency;
      assert Row(operation, size, concurrency)[k] == c;
    }
  }

  lemma {:induction false} MatrixMembers(operations: seq<string>, sizes: seq<nat>, concurrency: seq<nat>, c: Cell)
    ensures c in Matrix(operations, sizes, concurrency)
            <==> c.operation in operations && c.payloadSize in sizes && c.concurrency in concurrency
  {
    if operations != [] {
      var last := |operations| - 1;
      MatrixMembers(operations[..last], sizes, concurrency, c);
      assert operations == operations[..last] + [operations[last]];
      PlaneMembers(operations[last], sizes, concurrency, c);
    }
  }

  method Cells(w: Workload) returns (cells: seq<Cell>)
    ensures cells == CellsOf(w)
    ensures forall c :: (c in cells
              <==> c.operation in w.operations && c.payloadSize in w.payloadSizes && c.concurrency in w.concurrency)
  {
    cells := [];
    for i := 0 to |w.operations|
      invariant cells == Matrix(w.operations[..i], w.payloadSizes, w.concurrency)
    {
      var plane := PlaneCells(w.operations[i], w.payloadSizes, w.concurrency);
      cells := cells + plane;
      assert w.operations[..i + 1][..i] == w.operations[..i];
    }
    assert w.operations[..|w.operations|] == w.operations;
    forall c: Cell
      ensures c in cells
              <==> c.operation in w.operations && c.payloadSize in w.payloadSizes && c.concurrency in w.concurrency
    {
      MatrixMembers(w.operations, w.payloadSizes, w.concurrency, c);
    }
  }

  method PlaneCells(operation: string, sizes: seq<nat>, concurrency: seq<nat>) returns (cells: seq<Cell>)
    ensures cells == Plane(operation, sizes, concurrency)
  {
    cells := [];
    for j := 0 to |sizes|
      invariant cells == Plane(operation, sizes[..j], concurrency)
    {
      ghost var before := cells;
      for k := 0 to |concurrency|
        invariant cells == before + Row(operation, sizes[j], concurrency[..k])
      {
        cells := cells + [Cell(operation, sizes[j], concurrency[k])];
        assert Row(operation, sizes[j], concurrency[..k + 1])
            == Row(operation, sizes[j], concurrency[..k]) + [Cell(operation, sizes[j], concurrency[k])];
      }
      assert concurrency[..|concurrency|] == concurrency;
      assert sizes[..j + 1][..j] == sizes[..j];
    }
    assert sizes[..|sizes|] == sizes;
  }

  // ---- Validation ----

  /** The Unicode White_Space property, which `trim` removes. */
  predicate WhiteSpace(c: char) {
    || 0x09 as char <= c <= 0x0D as char
    || c == 0x20 as char || c == 0x85 as char || c == 0xA0 as char || c == 0x1680 as char
    || 0x2000 as char <= c <= 0x200A as char
    || c == 0x2028 as char || c == 0x2029 as char || c == 0x202F as char || c == 0x205F as char || c == 0x3000 as char
  }

  predicate Blank(s: string) { forall c :: c in s ==> WhiteSpace(c) }

  function Names(targets: seq<Target>): seq<string> {
    seq(|targets|, i requires 0 <= i < |targets| => targets[i].name)
  }

  predicate TargetOk(t: Target, profiles: set<string>) {
    && t.profile in profiles
    && t.command != []
    && (t.warmup.Some? ==> t.warmup.value != [])
    && (t.audit.Some? ==> t.audit.value != [] && [] !in t.audit.value)
  }

  predicate OneSubject(targets: seq<Target>) {
    exists i :: 0 <= i < |targets| && OnlySubject(targets, i)
  }

  predicate OnlySubject(targets: seq<Target>, i: nat) {
    forall j :: 0 <= j < |targets| ==> (targets[j].role.Subject? <==> j == i)
  }

  function NameSet(names: seq<string>): set<string> { set i | 0 <= i < |names| :: names[i] }

  predicate Valid(s: Suite) {
    && s.version == SUITE_SCHEMA_VERSION
    && !Blank(s.title)
    && Distinct(s.profiles)
    && Distinct(Names(s.targets))
    && (forall t :: t in s.targets ==> TargetOk(t, NameSet(s.profiles)))
    && OneSubject(s.targets)
    && (s.gates.required ==> exists t :: t in s.targets && t.role.Competitor?)
    && s.workload.operations != [] && s.workload.payloadSizes != [] && s.workload.concurrency != []
    && s.workload.durationSeconds > 0 && s.workload.repetitions > 0
    && s.gates.throughputRatioMinimum > 0.0 && s.gates.p99RatioMaximum > 0.0
    && 0.0 <= s.gates.tolerancePercent <= 50.0
  }

  lemma {:induction false} DistinctIff(names: seq<string>)
    ensures |NameSet(names)| <= |names|
    ensures |NameSet(names)| == |names| <==> Distinct(names)
  {
    if names != [] {
      var last := |names| - 1;
      var front := names[..last];
      DistinctIff(front);
      assert forall i :: 0 <= i < last ==> front[i] == names[i];
      assert NameSet(names) == NameSet(front) + {names[last]};
    }
  }

  function CountRole(targets: seq<Target>, role: Role): nat {
    if targets == [] then 0
    else CountRole(targets[..|targets| - 1], role) + if targets[|targets| - 1].role == role then 1 else 0
  }

  lemma {:induction false} CountZero(targets: seq<Target>, role: Role)
    ensures CountRole(targets, role) == 0 <==> forall t :: t in targets ==> t.role != role
  {
    if targets != [] {
      var last := |targets| - 1;
      CountZero(targets[..last], role);
      assert targets == targets[..last] + [targets[last]];
    }
  }

  lemma {:induction false} CountOne(targets: seq<Target>)
    ensures CountRole(targets, Subject) == 1 <==> OneSubject(targets)
  {
    if targets != [] {
      var last := |targets| - 1;
      var front := targets[..last];
      CountOne(front);
      CountZero(front, Subject);
      if targets[last].role.Subject? {
        if CountRole(front, Subject) == 0 {
          assert forall j :: 0 <= j < last ==> targets[j] in front;
          assert OnlySubject(targets, last);
        }
      } else {
        OneSubjectFront(targets);
      }
    }
  }

  lemma OneSubjectFront(targets: seq<Target>)
    requires targets != [] && !targets[|targets| - 1].role.Subject?
    ensures OneSubject(targets[..|targets| - 1]) <==> OneSubject(targets)
  {
    var last := |targets| - 1;
    var front := targets[..last];
    forall i | 0 <= i < last
      ensures OnlySubject(front, i) <==> OnlySubject(targets, i)
    {
      assert forall j :: 0 <= j < last ==> front[j] == targets[j];
    }
    assert !OnlySubject(targets, last);
  }

  datatype Fault =
    | BadVersion | BlankTitle | DuplicateProfile | DuplicateTarget(name: string) | BadTarget(name: string)
    | SubjectCount(found: nat) | NoCompetitor | EmptyWorkload | ZeroDuration | ZeroRepetitions | BadRatio | BadTolerance

  /** The first `n` targets have different names and are complete. */
  predicate TargetsOk(targets: seq<Target>, profiles: set<string>, n: nat)
    requires n <= |targets|
  {
    && (forall j, k :: 0 <= j < k < n ==> targets[j].name != targets[k].name)
    && (forall j :: 0 <= j < n ==> TargetOk(targets[j], profiles))
  }

  lemma TargetsOkIff(targets: seq<Target>, profiles: set<string>)
    ensures TargetsOk(targets, profiles, |targets|)
            <==> Distinct(Names(targets)) && forall t :: t in targets ==> TargetOk(t, profiles)
  {
    var names := Names(targets);
    assert forall j :: 0 <= j < |targets| ==> names[j] == targets[j].name && targets[j] in targets;
  }

  lemma CountStep(targets: seq<Target>, i: nat, role: Role)
    requires i < |targets|
    ensures CountRole(targets[..i + 1], role)
         == CountRole(targets[..i], role) + if targets[i].role == role then 1 else 0
  {
    assert targets[..i + 1][..i] == targets[..i];
  }

  /** The target loop: stops at the first target that is a duplicate or incomplete, and counts the roles. */
  method ScanTargets(targets: seq<Target>, profiles: set<string>)
    returns (fault: Option<Fault>, subjects: nat, competitors: nat)
    ensures fault.None? <==> TargetsOk(targets, profiles, |targets|)
    ensures fault.None? ==> subjects == CountRole(targets, Subject) && competitors == CountRole(targets, Competitor)
  {
    var names: set<string> := {};
    subjects, competitors := 0, 0;
    for i := 0 to |targets|
      invariant names == set j | 0 <= j < i :: targets[j].name
      invariant TargetsOk(targets, profiles, i)
      invariant subjects == CountRole(targets[..i], Subject) && competitors == CountRole(targets[..i], Competitor)
    {
      var t := targets[i];
      if t.name in names {
        return Some(DuplicateTarget(t.name)), subjects, competitors;
      }
      names := names + {t.name};
      if !TargetOk(t, profiles) {
        return Some(BadTarget(t.name)), subjects, competitors;
      }
      if t.role.Subject? {
        subjects := subjects + 1;
      } else if t.role.Competitor? {
        competitors := competitors + 1;
      }
      CountStep(targets, i, Subject);
      CountStep(targets, i, Competitor);
    }
    assert targets[..|targets|] == targets;
    fault := None;
  }

  /** Validation accepts exactly the valid suites. */
  method Validate(s: Suite) returns (fault: Option<Fault>)
    ensures fault.None? <==> Valid(s)
  {
    if s.version != SUITE_SCHEMA_VERSION {
      return Some(BadVersion);
    }
    if Blank(s.title) {
      return Some(BlankTitle);
    }
    DistinctIff(s.profiles);
    if |NameSet(s.profiles)| != |s.profiles| {
      return Some(DuplicateProfile);
    }
    var subjects, competitors;
    TargetsOkIff(s.targets, NameSet(s.profiles));
    fault, subjects, competitors := ScanTargets(s.targets, NameSet(s.profiles));
    if fault.Some? {
      return;
    }
    CountOne(s.targets);
    CountZero(s.targets, Competitor);
    if subjects != 1 {
      return Some(SubjectCount(subjects));
    }
    if competitors == 0 && s.gates.required {
      return Some(NoCompetitor);
    }
    fault := CheckWorkload(s.workload, s.gates);
  }

  method CheckWorkload(w: Workload, g: Gates) returns (fault: Option<Fault>)
    ensures fault.None? <==>
      && w.operations != [] && w.payloadSizes != [] && w.concurrency != []
      && w.durationSeconds > 0 && w.repetitions > 0
      && g.throughputRatioMinimum > 0.0 && g.p99RatioMaximum > 0.0
      && 0.0 <= g.tolerancePercent <= 50.0
  {
    if w.operations == [] || w.payloadSizes == [] || w.concurrency == [] {
      return Some(EmptyWorkload);
    }
    if w.durationSeconds == 0 {
      return Some(ZeroDuration);
    }
    if w.repetitions == 0 {
      return Some(ZeroRepetitions);
    }
    if g.throughputRatioMinimum <= 0.0 || g.p99RatioMaximum <= 0.0 {
      return Some(BadRatio);
    }
    if !(0.0 <= g.tolerancePercent <= 50.0) {
      return Some(BadTolerance);
    }
    fault := None;
  }
}
