/** Which warning a canvas node shows about its own version, compared with
    the registry entry of the same name, and the text of that warning. */
module VersionPolicy {
  import opened Wrappers
  import opened Seqs
  import Decimal

  /** An entry of the component registry (`canvas.componentNodes`). */
  datatype ComponentNode = ComponentNode(name: string, version: int, badge: Option<string>)

  datatype Warning =
    | VersionMissing(latest: int)
    | Outdated(installed: int, latest: int)
    | Deprecating

  /** JavaScript falsiness of a node's `version`: absent or zero. */
  predicate Falsy(version: Option<int>) {
    version.None? || version.value == 0
  }

  /** Which warning each condition calls for, stated one warning at a time. */
  predicate Applies(w: Warning, installed: Option<int>, entry: ComponentNode) {
    match w
    case VersionMissing(latest) => Falsy(installed) && latest == entry.version
    case Outdated(previous, latest) =>
      !Falsy(installed) && previous == installed.value && latest == entry.version && latest > previous
    case Deprecating => entry.badge == Some("DEPRECATING")
  }

  /** Missing version outranks an outdated one, which outranks deprecation. */
  function Severity(w: Warning): nat {
    match w
    case VersionMissing(_) => 3
    case Outdated(_, _) => 2
    case Deprecating => 1
  }

  /** The three rules of the version effect, in the order the source tests them. */
  function Evaluate(installed: Option<int>, entry: ComponentNode): (r: Option<Warning>)
    ensures r.Some? ==> Applies(r.value, installed, entry)
    ensures r.Some? ==> forall w :: Applies(w, installed, entry) ==> Severity(w) <= Severity(r.value)
    ensures r.None? ==> forall w :: !Applies(w, installed, entry)
  {
    if Falsy(installed) then Some(VersionMissing(entry.version))
    else if entry.version > installed.value then Some(Outdated(installed.value, entry.version))
    else if entry.badge == Some("DEPRECATING") then Some(Deprecating)
    else None
  }

  /** At most one warning of each severity applies, so the most severe
      applicable warning is unique. */
  lemma ApplicableUnique(w1: Warning, w2: Warning, installed: Option<int>, entry: ComponentNode)
    requires Applies(w1, installed, entry) && Applies(w2, installed, entry)
    requires Severity(w1) == Severity(w2)
    ensures w1 == w2
  {
  }

  /** The rules on sample inputs: a missing or zero version wins over a
      deprecation badge, an older version is outdated, and a current version
      is only reported when its entry is deprecating. */
  lemma EvaluateExamples()
    ensures Evaluate(None, ComponentNode("openAI", 5, Some("DEPRECATING"))) == Some(VersionMissing(5))
    ensures Evaluate(Some(0), ComponentNode("openAI", 1, None)) == Some(VersionMissing(1))
    ensures Evaluate(Some(2), ComponentNode("openAI", 3, None)) == Some(Outdated(2, 3))
    ensures Evaluate(Some(3), ComponentNode("openAI", 3, Some("DEPRECATING"))) == Some(Deprecating)
    ensures Evaluate(Some(4), ComponentNode("openAI", 3, Some("NEW"))) == None
  {
  }

  /** The registry lookup followed by the rules: no entry of that name, no
      warning; otherwise the rules run against the first entry of that name,
      so a falsy installed version always reports the missing version. */
  function Check(registry: seq<ComponentNode>, name: string, installed: Option<int>): (r: Option<Warning>)
    ensures (forall i :: 0 <= i < |registry| ==> registry[i].name != name) ==> r.None?
    ensures forall i ::
              (0 <= i < |registry| && registry[i].name == name &&
               forall j :: 0 <= j < i ==> registry[j].name != name) ==>
                r == Evaluate(installed, registry[i]) &&
                (Falsy(installed) ==> r == Some(VersionMissing(registry[i].version)))
  {
    match Find(registry, (nd: ComponentNode) => nd.name == name)
    case None => None
    case Some(entry) => Evaluate(installed, entry)
  }

  const MissingPrefix: string := "Node outdated\nUpdate to latest version "
  const OutdatedPrefix: string := "Node version "
  const LatestLabel: string := "outdated\nUpdate to latest version "
  /** The deprecation notice, written in three pieces: the verifier does
      not see the individual characters of one literal this long. */
  const DeprecationText: string :=
    "This node" + " will be deprecated in the next release." + " Change to a new node tagged with NEW"

  /** The text shown in the warning tooltip. */
  function Text(w: Warning): (m: string)
    ensures m != ""
  {
    match w
    case VersionMissing(latest) => MissingPrefix + Decimal.IntToString(latest)
    case Outdated(previous, latest) =>
      OutdatedPrefix + (Decimal.IntToString(previous) + (" " + (LatestLabel + Decimal.IntToString(latest))))
    case Deprecating => DeprecationText
  }

  lemma DropPrefix(p: string, s: string)
    ensures (p + s)[|p|..] == s
  {
  }

  /** Two strings that each run up to a first separator `c` agree up to it
      and after it. */
  lemma {:induction false} SplitAtFirst(a1: string, r1: string, a2: string, r2: string, c: char)
    requires c !in a1 && c !in a2
    requires a1 + ([c] + r1) == a2 + ([c] + r2)
    ensures a1 == a2 && r1 == r2
  {
    var s := a1 + ([c] + r1);
    assert s[|a1|] == c && forall k :: 0 <= k < |a1| ==> s[k] == a1[k];
    assert s[|a2|] == c && forall k :: 0 <= k < |a2| ==> s[k] == a2[k];
    assert |a1| == |a2|;
    assert a1 == s[..|a1|];
    assert a2 == s[..|a2|];
    DropPrefix(a1, [c] + r1);
    DropPrefix(a2, [c] + r2);
    DropPrefix([c], r1);
    DropPrefix([c], r2);
  }

  lemma NoSpaceInNumber(i: int)
    ensures ' ' !in Decimal.IntToString(i)
  {
  }

  /** Each kind of warning text has its own first and sixth character. */
  lemma TextKind(w: Warning)
    ensures |Text(w)| > 5
    ensures Text(w)[0] == if w.Deprecating? then 'T' else 'N'
    ensures Text(w)[5] == match w case VersionMissing(_) => 'o' case Outdated(_, _) => 'v' case Deprecating => 'n'
  {
    match w
    case VersionMissing(latest) =>
      assert Text(w) == MissingPrefix + Decimal.IntToString(latest);
    case Outdated(previous, latest) =>
    case Deprecating =>
  }

  lemma MissingTextInjective(n1: int, n2: int)
    requires Text(VersionMissing(n1)) == Text(VersionMissing(n2))
    ensures n1 == n2
  {
    DropPrefix(MissingPrefix, Decimal.IntToString(n1));
    DropPrefix(MissingPrefix, Decimal.IntToString(n2));
    Decimal.IntToStringInjective(n1, n2);
  }

  lemma OutdatedTextInjective(o1: int, n1: int, o2: int, n2: int)
    requires Text(Outdated(o1, n1)) == Text(Outdated(o2, n2))
    ensures o1 == o2 && n1 == n2
  {
    var a1, b1 := Decimal.IntToString(o1), Decimal.IntToString(n1);
    var a2, b2 := Decimal.IntToString(o2), Decimal.IntToString(n2);
    DropPrefix(OutdatedPrefix, a1 + (" " + (LatestLabel + b1)));
    DropPrefix(OutdatedPrefix, a2 + (" " + (LatestLabel + b2)));
    NoSpaceInNumber(o1);
    NoSpaceInNumber(o2);
    SplitAtFirst(a1, LatestLabel + b1, a2, LatestLabel + b2, ' ');
    DropPrefix(LatestLabel, b1);
    DropPrefix(LatestLabel, b2);
    Decimal.IntToStringInjective(o1, o2);
    Decimal.IntToStringInjective(n1, n2);
  }

  /** The tooltip text identifies the warning: different warnings, including
      the same kind with different version numbers, never read alike. */
  lemma TextInjective(w1: Warning, w2: Warning)
    requires Text(w1) == Text(w2)
    ensures w1 == w2
  {
    TextKind(w1);
    TextKind(w2);
    match w1
    case VersionMissing(n1) =>
      if w2.VersionMissing? {
        MissingTextInjective(n1, w2.latest);
      }
    case Outdated(o1, n1) =>
      if w2.Outdated? {
        OutdatedTextInjective(o1, n1, w2.installed, w2.latest);
      }
    case Deprecating =>
  }

  /** The printed latest version closes the text and reads back as the
      registry's version. */
  lemma TextNamesLatestVersion(w: Warning)
    requires !w.Deprecating?
    ensures var t := Text(w);
      var s := Decimal.IntToString(w.latest);
      |s| <= |t| && t[|t| - |s|..] == s && Decimal.ParseInt(t[|t| - |s|..]) == w.latest
  {
    var s := Decimal.IntToString(w.latest);
    Decimal.ParseIntToString(w.latest);
    match w
    case VersionMissing(_) =>
      DropPrefix(MissingPrefix, s);
    case Outdated(previous, _) =>
      var head := OutdatedPrefix + (Decimal.IntToString(previous) + (" " + LatestLabel));
      assert Text(w) == head + s;
      DropPrefix(head, s);
  }
}
