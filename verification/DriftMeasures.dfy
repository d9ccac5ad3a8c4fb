/** The two measures of configuration drift: the classifier inside the remediation workflow and the
    score behind the compliance posture. */
module DriftMeasures {
  import opened Json
  import opened Devices
  import opened Strings

  datatype Severity = NoDrift | Cosmetic | Critical

  datatype Action = Nothing | LogOnly | SuppressMaintenance | Remediate

  datatype DiffLine = DiffLine(key: string, intended: Json, running: Json)

  datatype DriftResult = DriftResult(hasDrift: bool, severity: Severity, diff: seq<DiffLine>)

  /** `doc.get(key)`: a missing key and an explicit null read the same. */
  function Get(doc: Doc, key: string): Json {
    if key in doc then doc[key] else Null
  }

  predicate HasAdminStateKey(j: Json) {
    match j
    case Obj(fields) => "admin-state" in fields || exists k | k in fields :: HasAdminStateKey(fields[k])
    case Arr(items) => exists i | 0 <= i < |items| :: HasAdminStateKey(items[i])
    case _ => false
  }

  /** One step down into a value. */
  datatype Descent = Field(key: string) | Item(index: nat)

  function Below(j: Json, at: seq<Descent>): Option<Json>
    decreases |at|
  {
    if at == [] then Some(j)
    else match (j, at[0])
      case (Obj(fields), Field(k)) => if k in fields then Below(fields[k], at[1..]) else None
      case (Arr(items), Item(i)) => if i < |items| then Below(items[i], at[1..]) else None
      case _ => None
  }

  ghost predicate NamesAdminState(j: Json, at: seq<Descent>) {
    match Below(j, at)
    case Some(Obj(fields)) => "admin-state" in fields
    case _ => false
  }

  /** The recursive test finds the key exactly when some object at some depth has it. */
  lemma AdminStateAtAnyDepth(j: Json)
    ensures HasAdminStateKey(j) <==> exists at :: NamesAdminState(j, at)
  {
    if HasAdminStateKey(j) {
      var _ := FindAdminState(j);
    }
    forall at | NamesAdminState(j, at) ensures HasAdminStateKey(j) {
      MeetAdminState(j, at);
    }
  }

  lemma {:induction false} FindAdminState(j: Json) returns (at: seq<Descent>)
    requires HasAdminStateKey(j)
    ensures NamesAdminState(j, at)
  {
    if j.Obj? && "admin-state" !in j.fields {
      var k :| k in j.fields && HasAdminStateKey(j.fields[k]);
      var rest := FindAdminState(j.fields[k]);
      at := [Field(k)] + rest;
      assert at[1..] == rest;
    } else if j.Arr? {
      var i :| 0 <= i < |j.items| && HasAdminStateKey(j.items[i]);
      var rest := FindAdminState(j.items[i]);
      at := [Item(i)] + rest;
      assert at[1..] == rest;
    } else {
      at := [];
    }
  }

  lemma {:induction false} MeetAdminState(j: Json, at: seq<Descent>)
    requires NamesAdminState(j, at)
    ensures HasAdminStateKey(j)
    decreases |at|
  {
    if at != [] {
      match (j, at[0])
      case (Obj(fields), Field(k)) => MeetAdminState(fields[k], at[1..]);
      case (Arr(items), Item(i)) => MeetAdminState(items[i], at[1..]);
    }
  }

  predicate Differs(intended: Doc, running: Doc, key: string) {
    Get(intended, key) != Get(running, key)
  }

  function Sections(intended: Doc, running: Doc): set<string> {
    intended.Keys + running.Keys
  }

  /** A differing section that makes drift critical. */
  predicate CriticalSection(intended: Doc, running: Doc, key: string) {
    && Differs(intended, running, key)
    && (|| Get(intended, key) == Null || Get(running, key) == Null
        || HasAdminStateKey(Get(running, key)) || HasAdminStateKey(Get(intended, key)))
  }

  function SeverityOf(intended: Doc, running: Doc): Severity {
    if intended == running then NoDrift
    else if exists k | k in Sections(intended, running) :: CriticalSection(intended, running, k) then Critical
    else Cosmetic
  }

  function DiffLines(intended: Doc, running: Doc, keys: seq<string>): seq<DiffLine> {
    if keys == [] then []
    else (if Differs(intended, running, keys[0])
          then [DiffLine(keys[0], Get(intended, keys[0]), Get(running, keys[0]))] else [])
         + DiffLines(intended, running, keys[1..])
  }

  lemma {:induction false} DiffLinesSnoc(intended: Doc, running: Doc, keys: seq<string>, k: string)
    ensures DiffLines(intended, running, keys + [k]) ==
            DiffLines(intended, running, keys) + DiffLines(intended, running, [k])
    decreases |keys|
  {
    if keys == [] {
      assert keys + [k] == [k];
    } else {
      assert (keys + [k])[1..] == keys[1..] + [k];
      DiffLinesSnoc(intended, running, keys[1..], k);
    }
  }

  /** `r` is what the classifier says of the two documents. */
  ghost predicate Classifies(r: DriftResult, intended: Doc, running: Doc) {
    && (r.hasDrift <==> intended != running)
    && r.severity == SeverityOf(intended, running)
    && exists keys :: IsSorted(keys, Sections(intended, running)) && r.diff == DiffLines(intended, running, keys)
  }

  /** There is only one such result: `sorted` leaves no choice of order. */
  lemma ClassificationIsUnique(a: DriftResult, b: DriftResult, intended: Doc, running: Doc)
    requires Classifies(a, intended, running) && Classifies(b, intended, running)
    ensures a == b
  {
    var all := Sections(intended, running);
    var k :| IsSorted(k, all) && a.diff == DiffLines(intended, running, k);
    var l :| IsSorted(l, all) && b.diff == DiffLines(intended, running, l);
    SortedIsUnique(k, l, all);
  }

  method ClassifyDrift(intended: Doc, running: Doc) returns (r: DriftResult)
    ensures Classifies(r, intended, running)
  {
    hide Classifies;
    hide SeverityOf;
    hide IsSorted;
    hide Sections;
    hide HasAdminStateKey;
    var keys := SortKeys(Sections(intended, running));
    if intended == running {
      NoLines(intended, keys);
      NoDriftClassifies(intended, keys);
      return DriftResult(false, NoDrift, []);
    }
    var diffLines := [];
    var hasCritical := false;
    var n := 0;
    while n < |keys|
      invariant 0 <= n <= |keys|
      invariant diffLines == DiffLines(intended, running, keys[..n])
      invariant hasCritical <==> exists i | 0 <= i < n :: CriticalSection(intended, running, keys[i])
    {
      var iVal, rVal := Get(intended, keys[n]), Get(running, keys[n]);
      DiffLinesSnoc(intended, running, keys[..n], keys[n]);
      assert keys[..n + 1] == keys[..n] + [keys[n]];
      if iVal != rVal {
        diffLines := diffLines + [DiffLine(keys[n], iVal, rVal)];
        if iVal == Null || rVal == Null || HasAdminStateKey(rVal) || HasAdminStateKey(iVal) {
          hasCritical := true;
          assert CriticalSection(intended, running, keys[n]);
        }
      }
      n := n + 1;
    }
    assert keys[..n] == keys;
    r := DriftResult(true, if hasCritical then Critical else Cosmetic, diffLines);
    DriftClassifies(intended, running, keys, hasCritical);
  }

  lemma NoDriftClassifies(doc: Doc, keys: seq<string>)
    requires IsSorted(keys, Sections(doc, doc)) && DiffLines(doc, doc, keys) == []
    ensures Classifies(DriftResult(false, NoDrift, []), doc, doc)
  {
  }

  lemma DriftClassifies(intended: Doc, running: Doc, keys: seq<string>, hasCritical: bool)
    requires IsSorted(keys, Sections(intended, running)) && intended != running
    requires hasCritical <==> exists i | 0 <= i < |keys| :: CriticalSection(intended, running, keys[i])
    ensures Classifies(
              DriftResult(true, if hasCritical then Critical else Cosmetic, DiffLines(intended, running, keys)),
              intended, running)
  {
    hide CriticalSection;
    hide DiffLines;
    hide Ascending;
    hide Sections;
    if hasCritical {
      var i :| 0 <= i < |keys| && CriticalSection(intended, running, keys[i]);
      assert keys[i] in keys;
    }
    if k :| k in Sections(intended, running) && CriticalSection(intended, running, k) {
      assert k in keys;
    }
  }

  lemma {:induction false} NoLines(doc: Doc, keys: seq<string>)
    ensures DiffLines(doc, doc, keys) == []
    decreases |keys|
  {
    if keys != [] { NoLines(doc, keys[1..]); }
  }

  function DecideDriftAction(severity: Severity, status: Status): Action {
    if severity == NoDrift then Nothing
    else if status == Maintenance then SuppressMaintenance
    else if severity == Cosmetic then LogOnly
    else Remediate
  }

  /** `compute_drift_score` tells a missing key from a null. */
  predicate SectionDiffers(intended: Doc, running: Doc, key: string) {
    (key in intended) != (key in running) || (key in intended && intended[key] != running[key])
  }

  function DifferingSections(intended: Doc, running: Doc): set<string> {
    set k | k in Sections(intended, running) && SectionDiffers(intended, running, k)
  }

  /** The score of two parsed inputs; `None` is text that did not parse. */
  function ComputeDriftScore(intended: Option<Json>, running: Option<Json>): real {
    if intended.None? || running.None? || !intended.value.Obj? || !running.value.Obj? then 1.0
    else
      Score(intended.value.fields, running.value.fields)
  }

  function Score(intended: Doc, running: Doc): real {
    Fraction(|DifferingSections(intended, running)|, |Sections(intended, running)|)
  }

  function Fraction(n: nat, d: nat): real {
    if d == 0 then 0.0 else n as real / d as real
  }

  function Scaled(score: real, sections: nat): real {
    score * sections as real
  }

  /** An explicit null on one side of a section that the other side lacks. */
  predicate NullGap(intended: Doc, running: Doc, key: string) {
    || (key in intended && intended[key] == Null && key !in running)
    || (key in running && running[key] == Null && key !in intended)
  }

  /** It is there, and only there, that the two measures see a section differently. */
  lemma NullGapIff(intended: Doc, running: Doc, key: string)
    ensures NullGap(intended, running, key)
            <==> SectionDiffers(intended, running, key) != Differs(intended, running, key)
    ensures Differs(intended, running, key) ==> SectionDiffers(intended, running, key)
  {
  }

  lemma DifferingEmptyIff(intended: Doc, running: Doc)
    ensures DifferingSections(intended, running) == {} <==> intended == running
  {
    if DifferingSections(intended, running) == {} {
      forall k | k in Sections(intended, running) ensures !SectionDiffers(intended, running, k) {
        assert k !in DifferingSections(intended, running);
      }
      forall k ensures k in intended <==> k in running {
        if k in Sections(intended, running) { assert !SectionDiffers(intended, running, k); }
      }
      assert forall k | k in intended :: k in Sections(intended, running);
      assert intended == running;
    }
  }

  /** The score times the number of sections is the number of differing sections. */
  lemma ScoreIsFraction(intended: Doc, running: Doc)
    ensures Scaled(Score(intended, running), |Sections(intended, running)|)
            == |DifferingSections(intended, running)| as real
    ensures 0.0 <= Score(intended, running) <= 1.0
    ensures Score(intended, running) > 0.0 <==> DifferingSections(intended, running) != {}
  {
    var all, some := Sections(intended, running), DifferingSections(intended, running);
    assert some <= all;
    hide Sections;
    hide DifferingSections;
    hide Fraction;
    hide Scaled;
    SubsetSize(some, all);
    Quotient(|some|, |all|);
    assert |some| > 0 <==> some != {};
  }

  lemma {:induction false} SubsetSize(a: set<string>, b: set<string>)
    requires a <= b
    ensures |a| <= |b|
    ensures |a| == |b| ==> a == b
    decreases a
  {
    if a != {} {
      var x :| x in a;
      SubsetSize(a - {x}, b - {x});
    }
  }

  lemma Quotient(n: nat, d: nat)
    requires n <= d
    ensures Scaled(Fraction(n, d), d) == n as real
    ensures 0.0 <= Fraction(n, d) <= 1.0
    ensures Fraction(n, d) > 0.0 <==> n > 0
  {
  }

  /** `compute_drift_score` of two objects. */
  function ObjectScore(intended: Doc, running: Doc): real {
    ComputeDriftScore(Some(Obj(intended)), Some(Obj(running)))
  }

  /** Drift is reported exactly when the score is positive. */
  lemma DriftIffPositiveScore(r: DriftResult, intended: Doc, running: Doc)
    requires Classifies(r, intended, running)
    ensures r.hasDrift <==> ObjectScore(intended, running) > 0.0
    ensures r.severity != NoDrift <==> ObjectScore(intended, running) > 0.0
  {
    ScoreIsFraction(intended, running);
    DifferingEmptyIff(intended, running);
  }

  /** The score is never outside 0..1, and it is 1 for anything but two objects. */
  lemma ScoreRange(intended: Option<Json>, running: Option<Json>)
    ensures 0.0 <= ComputeDriftScore(intended, running) <= 1.0
    ensures ComputeDriftScore(intended, running) == 0.0
            <==> intended == running && intended.Some? && intended.value.Obj?
  {
    if intended.Some? && running.Some? && intended.value.Obj? && running.value.Obj? {
      ScoreIsFraction(intended.value.fields, running.value.fields);
      DifferingEmptyIff(intended.value.fields, running.value.fields);
    }
  }

  lemma {:induction false} LinesCountDiffering(intended: Doc, running: Doc, keys: seq<string>, all: set<string>)
    requires IsSorted(keys, all)
    ensures |DiffLines(intended, running, keys)| == |set k | k in all && Differs(intended, running, k)|
    decreases |keys|
  {
    var differing := set k | k in all && Differs(intended, running, k);
    if keys == [] {
      assert forall k :: k in all <==> k in keys;
      assert all == {};
    } else {
      assert keys[0] in all;
      var rest := all - {keys[0]};
      WithoutFirst(keys, all);
      LinesCountDiffering(intended, running, keys[1..], rest);
      var fewer := set k | k in rest && Differs(intended, running, k);
      assert fewer == differing - {keys[0]};
    }
  }

  /** The classifier emits score times sections diff lines exactly when no section is an explicit
      null on one side and missing on the other. */
  lemma LinesMatchScoreIff(r: DriftResult, intended: Doc, running: Doc)
    requires Classifies(r, intended, running)
    ensures |r.diff| as real == Scaled(ObjectScore(intended, running), |Sections(intended, running)|)
            <==> forall k :: !NullGap(intended, running, k)
  {
    hide Score;
    hide Scaled;
    hide DifferingSections;
    hide NullGap;
    hide DiffLines;
    var all := Sections(intended, running);
    var keys :| IsSorted(keys, all) && r.diff == DiffLines(intended, running, keys);
    ScoreIsFraction(intended, running);
    LinesCountDiffering(intended, running, keys, all);
    NoGapIff(intended, running);
  }

  lemma NoGapIff(intended: Doc, running: Doc)
    ensures var all := Sections(intended, running);
            |set k | k in all && Differs(intended, running, k)| == |DifferingSections(intended, running)|
            <==> forall k :: !NullGap(intended, running, k)
  {
    var all := Sections(intended, running);
    var differing := set k | k in all && Differs(intended, running, k);
    var sections := DifferingSections(intended, running);
    forall k ensures NullGap(intended, running, k) <==> k in sections && k !in differing {
      NullGapIff(intended, running, k);
      GapIsSection(intended, running, k);
    }
    hide NullGap;
    assert differing <= sections by {
      forall k | k in differing ensures k in sections { NullGapIff(intended, running, k); }
    }
    SubsetSize(differing, sections);
    if differing != sections {
      var k :| k in sections && k !in differing;
      assert NullGap(intended, running, k);
    }
  }

  lemma GapIsSection(intended: Doc, running: Doc, key: string)
    ensures NullGap(intended, running, key) ==> key in Sections(intended, running)
  {
  }

  /** Without null sections there is no such gap. */
  lemma NoNullsNoGap(intended: Doc, running: Doc, key: string)
    requires forall k | k in intended :: intended[k] != Null
    requires forall k | k in running :: running[k] != Null
    ensures !NullGap(intended, running, key)
  {
  }

  /** A concrete gap: drift is reported, and called cosmetic, with no line to show for it. */
  lemma NullGapExample()
    ensures var i: Doc, r: Doc := map["mtu" := Null], map[];
            && SeverityOf(i, r) == Cosmetic && ObjectScore(i, r) == 1.0
            && DiffLines(i, r, ["mtu"]) == []
  {
    var i: Doc, r: Doc := map["mtu" := Null], map[];
    assert "mtu" in i && i != r;
    forall k | k in i.Keys + r.Keys ensures !CriticalSection(i, r, k) {
      assert k == "mtu";
    }
    assert DifferingSections(i, r) == {"mtu"} == i.Keys + r.Keys;
    assert DiffLines(i, r, ["mtu"][1..]) == [];
  }

  lemma SectionsSwap(intended: Doc, running: Doc, key: string)
    ensures CriticalSection(intended, running, key) <==> CriticalSection(running, intended, key)
    ensures SectionDiffers(intended, running, key) <==> SectionDiffers(running, intended, key)
  {
  }

  /** Swapping the documents keeps the severity and the score. */
  lemma SeveritySymmetric(a: DriftResult, b: DriftResult, intended: Doc, running: Doc)
    requires Classifies(a, intended, running) && Classifies(b, running, intended)
    ensures a.hasDrift == b.hasDrift && a.severity == b.severity
  {
    hide CriticalSection;
    assert Sections(intended, running) == Sections(running, intended);
    forall k ensures CriticalSection(intended, running, k) <==> CriticalSection(running, intended, k) {
      SectionsSwap(intended, running, k);
    }
  }

  lemma ScoreSymmetric(intended: Option<Json>, running: Option<Json>)
    ensures ComputeDriftScore(intended, running) == ComputeDriftScore(running, intended)
  {
    if intended.Some? && running.Some? && intended.value.Obj? && running.value.Obj? {
      var i, r := intended.value.fields, running.value.fields;
      hide SectionDiffers;
      assert Sections(i, r) == Sections(r, i);
      forall k ensures k in DifferingSections(i, r) <==> k in DifferingSections(r, i) {
        SectionsSwap(i, r, k);
      }
      assert DifferingSections(i, r) == DifferingSections(r, i);
      hide DifferingSections;
      hide Sections;
    }
  }

  /** Section `k` differs and is absent, or null, on one side, or names an admin state somewhere
      inside either value. */
  ghost predicate CriticalInWords(intended: Doc, running: Doc, k: string) {
    && Differs(intended, running, k)
    && (|| Get(intended, k) == Null || Get(running, k) == Null
        || (exists at :: NamesAdminState(Get(intended, k), at))
        || (exists at :: NamesAdminState(Get(running, k), at)))
  }

  lemma CriticalSectionInWords(intended: Doc, running: Doc, k: string)
    ensures CriticalSection(intended, running, k) <==> CriticalInWords(intended, running, k)
    ensures Differs(intended, running, k) ==> k in Sections(intended, running) && intended != running
  {
    AdminStateAtAnyDepth(Get(intended, k));
    AdminStateAtAnyDepth(Get(running, k));
  }

  lemma CriticalIff(r: DriftResult, intended: Doc, running: Doc)
    requires Classifies(r, intended, running)
    ensures r.severity == Critical <==> exists k :: CriticalInWords(intended, running, k)
  {
    if SeverityOf(intended, running) == Critical {
      var k :| k in Sections(intended, running) && CriticalSection(intended, running, k);
      CriticalSectionInWords(intended, running, k);
    }
    if k :| CriticalInWords(intended, running, k) {
      CriticalSectionInWords(intended, running, k);
    }
  }
}
