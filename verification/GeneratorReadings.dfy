/** The names that sections are asked for by when a record is generated. */
module GeneratorReadings {
  import opened Bytes
  import opened CperGenerate
  import opened GeneratorRoundTrip
  import opened GuidReadings
  import opened Guids
  import opened Options
  import Sections

  /** The names on the command line, in the order of the section types. */
  function GeneratorText(i: nat): string {
    match i
    case 0 => "generic"
    case 1 => "ia32x64"
    case 2 => "arm"
    case 3 => "memory"
    case 4 => "memory2"
    case 5 => "pcie"
    case 6 => "firmware"
    case 7 => "pcibus"
    case 8 => "pcidev"
    case 9 => "dmargeneric"
    case 10 => "dmarvtd"
    case 11 => "dmariommu"
    case 12 => "ccixper"
    case 13 => "cxlprotocol"
    case 14 => "cxlcomponent-media"
    case 15 => "cxlcomponent-dram"
    case 16 => "cxlcomponent-memory"
    case 17 => "cxlcomponent-pswitch"
    case 18 => "cxlcomponent-vswitch"
    case 19 => "cxlcomponent-mld"
    case 20 => "nvidia"
    case _ => "unknown"
  }

  /** The section type that the i-th name stands for; the one for IPF has none. */
  function TypeRow(i: nat): nat {
    match i
    case 0 => 0
    case 1 => 1
    case _ => i + 1
  }

  ghost predicate TextMatches(i: nat) {
    i < |GeneratorDefinitions()| && GeneratorDefinitions()[i].shortName == GeneratorText(i)
  }

  lemma FirstTexts(i: nat)
    requires i < 7
    ensures TextMatches(i)
  {
  }

  lemma MiddleTexts(i: nat)
    requires 7 <= i < 14
    ensures TextMatches(i)
  {
  }

  lemma LastTexts(i: nat)
    requires 14 <= i < 21
    ensures TextMatches(i)
  {
  }

  lemma Texts(i: nat)
    requires i < 21
    ensures TextMatches(i)
  {
    hide TextMatches;
    if i < 7 {
      FirstTexts(i);
    } else if i < 14 {
      MiddleTexts(i);
    } else {
      LastTexts(i);
    }
  }

  /** A length and one letter tell the names apart. */
  function Mark(name: string): int {
    |name| * 1000 +
    if |name| == 0 then 0
    else (if |name| == 6 then name[4] else if |name| == 20 then name[13] else name[0]) as int
  }

  function MarkOf(i: nat): int {
    match i
    case 0 => 7103
    case 1 => 7105
    case 2 => 3097
    case 3 => 6114
    case 4 => 7109
    case 5 => 4112
    case 6 => 8102
    case 7 => 6117
    case 8 => 6101
    case 9 => 11100
    case 10 => 7100
    case 11 => 9100
    case 12 => 7099
    case 13 => 11099
    case 14 => 18099
    case 15 => 17099
    case 16 => 19099
    case 17 => 20112
    case 18 => 20118
    case 19 => 16099
    case 20 => 6105
    case _ => 0
  }

  lemma FirstMarks(i: nat)
    requires i < 11
    ensures Mark(GeneratorText(i)) == MarkOf(i)
  {
  }

  lemma LastMarks(i: nat)
    requires 11 <= i < 21
    ensures Mark(GeneratorText(i)) == MarkOf(i)
  {
  }

  lemma MarksDiffer(i: nat, j: nat)
    requires i < j < 21
    ensures MarkOf(i) != MarkOf(j)
  {
  }

  lemma TextsDiffer(i: nat, j: nat)
    requires i < j < 21
    ensures GeneratorText(i) != GeneratorText(j)
  {
    hide GeneratorText, Mark, MarkOf;
    MarksDiffer(i, j);
    if i < 11 {
      FirstMarks(i);
    } else {
      LastMarks(i);
    }
    if j < 11 {
      FirstMarks(j);
    } else {
      LastMarks(j);
    }
  }

  lemma {:induction false} NamedAt(table: seq<Generator>, i: nat)
    requires i < |table| && forall j :: 0 <= j < i ==> table[j].shortName != table[i].shortName
    ensures Named(table, table[i].shortName) == Some(table[i])
    decreases i
  {
    if i > 0 {
      assert table[0].shortName != table[i].shortName && table[1..][i - 1] == table[i];
      NamedAt(table[1..], i - 1);
    }
  }

  lemma {:induction false} NamedNone(table: seq<Generator>, name: string)
    requires forall i :: 0 <= i < |table| ==> table[i].shortName != name
    ensures Named(table, name) == None
    decreases |table|
  {
    if table != [] {
      NamedNone(table[1..], name);
    }
  }

  /** A name stands for the generator that makes sections of the type with these sixteen bytes; other names for none. */
  lemma GeneratorShown(name: string)
    ensures forall i: nat :: i < 21 && name == GeneratorText(i) ==> StandsFor(name, TypeRow(i))
    ensures (forall i: nat :: i < 21 ==> name != GeneratorText(i)) ==> Named(GeneratorDefinitions(), name) == None
  {
    hide GeneratorText, GeneratorDefinitions, Named, StandsFor, TypeRow;
    GeneratorRows();
    forall i: nat | i < 21
      ensures GeneratorDefinitions()[i].shortName == GeneratorText(i)
    {
      Texts(i);
    }
    forall i: nat | i < 21 && name == GeneratorText(i)
      ensures StandsFor(name, TypeRow(i))
    {
      forall j: nat | j < i
        ensures GeneratorText(j) != GeneratorText(i)
      {
        TextsDiffer(j, i);
      }
      NamedAt(GeneratorDefinitions(), i);
      Standing(i);
    }
    if forall i: nat :: i < 21 ==> name != GeneratorText(i) {
      NamedNone(GeneratorDefinitions(), name);
    }
  }

  ghost predicate StandsFor(name: string, row: nat) {
    var g := Named(GeneratorDefinitions(), name);
    g.Some? && g.value.guid == GuidOf(SectionBytes(row)) && SectionConverter(row) == Some(g.value.kind)
  }

  lemma Standing(i: nat)
    requires i < 21 && |GeneratorDefinitions()| == 21 && RowMatches(i)
    requires Named(GeneratorDefinitions(), GeneratorText(i)) == Some(GeneratorDefinitions()[i])
    ensures StandsFor(GeneratorText(i), TypeRow(i))
  {
    hide GeneratorDefinitions, GeneratorText, Named, Sections.SectionDefinitions, GuidOf, SectionBytes, SectionGuid,
      SectionText, SectionConverter;
    SectionRow(TypeRow(i));
  }
}
