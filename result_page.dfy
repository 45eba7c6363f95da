/**
 * The chart result page: the four pillars transposed into the stem row and
 * the branch row of the table, and the da-yun (ten-year luck period) list
 * mapped to display chips. `onLoad` applies the cached chart when there is
 * one and otherwise leaves the page at its defaults.
 */
module ResultPage {
  import opened Wrappers
  import opened Strings

  /** One pillar: its heavenly stem and its earthly branch. */
  datatype Pillar = Pillar(stem: string, branch: string)

  datatype FourPillars = FourPillars(year: Pillar, month: Pillar, day: Pillar, hour: Pillar)

  /** One da-yun period: the age it starts at, its start year and its pillar (absent or empty when unknown). */
  datatype DayunItem = DayunItem(age: int, startYear: int, pillar: Option<seq<string>>)

  datatype Mingpan = Mingpan(fourPillars: FourPillars, dayun: Option<seq<DayunItem>>)

  /** What storage holds under `last_paipan`. */
  datatype Cached = Cached(mingpan: Option<Mingpan>)

  /** The four-pillar table: stems, branches and the growth-phase row. */
  datatype Table = Table(tiangan: seq<string>, dizhi: seq<string>, changsheng: seq<string>)

  /** One da-yun chip: the stem-branch text and the age shown. */
  datatype Chip = Chip(ganzhi: string, age: string)

  const Placeholder: string := "—"

  /** The pillars in table order: year, month, day, hour. */
  function Columns(fp: FourPillars): seq<Pillar>
  {
    [fp.year, fp.month, fp.day, fp.hour]
  }

  /** The stem row. */
  function Tiangan(fp: FourPillars): (r: seq<string>)
    ensures |r| == 4
  {
    [fp.year.stem, fp.month.stem, fp.day.stem, fp.hour.stem]
  }

  /** The branch row. */
  function Dizhi(fp: FourPillars): (r: seq<string>)
    ensures |r| == 4
  {
    [fp.year.branch, fp.month.branch, fp.day.branch, fp.hour.branch]
  }

  /** The table is the transpose of the pillars: column `i` holds the stem and the branch of the `i`-th pillar. */
  lemma TableIsTranspose(fp: FourPillars, i: nat)
    requires i < 4
    ensures Pillar(Tiangan(fp)[i], Dizhi(fp)[i]) == Columns(fp)[i]
  {
  }

  /** `pieces.join("")`. */
  function Concat(pieces: seq<string>): (r: string)
    ensures |pieces| == 1 ==> r == pieces[0]
  {
    if pieces == [] then "" else pieces[0] + Concat(pieces[1..])
  }

  /** `join("")` of two lists of pieces, one after the other, is the join of the first followed by the join of the second. */
  lemma {:induction false} ConcatAppend(a: seq<string>, b: seq<string>)
    ensures Concat(a + b) == Concat(a) + Concat(b)
    decreases |a|
  {
    if a == [] {
      assert a + b == b;
    } else {
      assert (a + b)[1..] == a[1..] + b;
      ConcatAppend(a[1..], b);
    }
  }

  /** The chip of a da-yun period. */
  function ChipOf(d: DayunItem): (c: Chip)
    ensures d.pillar.None? || d.pillar.value == [] ==> c.ganzhi == Placeholder
    ensures d.pillar.Some? && d.pillar.value != [] ==> c.ganzhi == Concat(d.pillar.value)
    ensures c.age == IntToString(d.age) + "岁 / " + IntToString(d.startYear)
  {
    Chip(if d.pillar.Some? && |d.pillar.value| > 0 then Concat(d.pillar.value) else Placeholder,
         IntToString(d.age) + "岁 / " + IntToString(d.startYear))
  }

  /** `(m.dayun || []).map(...)`: one chip per period, in order. */
  function DayunChips(dayun: Option<seq<DayunItem>>): (r: seq<Chip>)
    ensures dayun.None? ==> r == []
    ensures dayun.Some? ==> |r| == |dayun.value| && forall i :: 0 <= i < |r| ==> r[i] == ChipOf(dayun.value[i])
  {
    var items := if dayun.Some? then dayun.value else [];
    seq(|items|, i requires 0 <= i < |items| => ChipOf(items[i]))
  }

  /** A period with a two-character pillar shows stem then branch. */
  lemma ChipOfPair(age: int, startYear: int, stem: string, branch: string)
    ensures ChipOf(DayunItem(age, startYear, Some([stem, branch]))).ganzhi == stem + branch
  {
    ConcatAppend([stem], [branch]);
    assert [stem] + [branch] == [stem, branch];
  }

  /** The age shown starts with the age's digits, then `岁`: the age can be read back from it. */
  lemma AgeReadBack(d: DayunItem)
    requires d.age >= 0
    ensures var shown := ChipOf(d).age; var n := |NatToString(d.age)|;
      n < |shown| && ParseDecimal(shown[..n]) == d.age && shown[n] == '岁'
  {
    var digits := NatToString(d.age);
    var shown := ChipOf(d).age;
    assert shown == digits + ("岁 / " + IntToString(d.startYear));
    assert shown[..|digits|] == digits;
    NatToStringRoundTrip(d.age);
  }

  /** The result page's data. */
  class ResultView {
    var table: Table
    var dayun: seq<Chip>

    constructor()
      ensures table == Table([], [], [Placeholder, Placeholder, Placeholder, Placeholder])
      ensures dayun == []
    {
      table := Table([], [], [Placeholder, Placeholder, Placeholder, Placeholder]);
      dayun := [];
    }

    /** `applyMingpan`: the table rows from the pillars, the growth-phase row kept, and the chips. */
    method ApplyMingpan(m: Mingpan)
      modifies this
      ensures table == Table(Tiangan(m.fourPillars), Dizhi(m.fourPillars), old(table.changsheng))
      ensures dayun == DayunChips(m.dayun)
    {
      var fp := m.fourPillars;
      var tiangan := [fp.year.stem, fp.month.stem, fp.day.stem, fp.hour.stem];
      var dizhi := [fp.year.branch, fp.month.branch, fp.day.branch, fp.hour.branch];
      var chips := DayunChips(m.dayun);
      table := Table(tiangan, dizhi, table.changsheng);
      dayun := chips;
    }

    /** `onLoad`: applies the cached chart, or only shows a toast (returned as `true`) when there is none. */
    method OnLoad(cached: Option<Cached>) returns (toast: bool)
      modifies this
      ensures toast <==> cached.None? || cached.value.mingpan.None?
      ensures toast ==> table == old(table) && dayun == old(dayun)
      ensures !toast ==> var m := cached.value.mingpan.value;
        table == Table(Tiangan(m.fourPillars), Dizhi(m.fourPillars), old(table.changsheng)) && dayun == DayunChips(m.dayun)
    {
      if cached.None? || cached.value.mingpan.None? {
        return true;
      }
      ApplyMingpan(cached.value.mingpan.value);
      toast := false;
    }
  }
}
