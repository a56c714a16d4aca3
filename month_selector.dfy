/** The sidebar's month menu: one link per month, the selected one marked active. */
module MonthSelector {
  import opened Wrappers
  import opened MonthContext

  datatype MenuEntry = MenuEntry(month: string, href: string, isActive: bool)

  /** `` `/?month=${month}` `` */
  function Href(month: string): string
  {
    "/?month=" + month
  }

  /** `months.map((month) => ...)` given the selected month. */
  function Entries(selected: string): (es: seq<MenuEntry>)
    ensures |es| == |Months| == 12
    ensures forall k :: 0 <= k < |es| ==>
      es[k].month == Months[k] && es[k].href == Href(Months[k]) && (es[k].isActive <==> selected == Months[k])
  {
    seq(|Months|, k requires 0 <= k < |Months| => MenuEntry(Months[k], Href(Months[k]), selected == Months[k]))
  }

  /** The whole menu for a URL parameter and the current month. */
  function Menu(param: Option<string>, current: MonthIndex): (m: seq<MenuEntry>)
    ensures |m| == 12
    ensures forall k :: 0 <= k < 12 ==> m[k].month == Months[k] && m[k].href == Href(Months[k])
    ensures forall k :: 0 <= k < 12 ==> (m[k].isActive <==> m[k].month == SelectedMonth(param, current))
  {
    Entries(SelectedMonth(param, current))
  }

  /** At most one entry is active, because the names are distinct. */
  lemma AtMostOneActive(selected: string)
    ensures forall i, j :: 0 <= i < j < 12 && Entries(selected)[i].isActive ==> !Entries(selected)[j].isActive
  {
    MonthsDistinct();
  }

  /** Some entry is active iff the selected month is one of the twelve names. */
  lemma SomeActiveIffKnown(selected: string)
    ensures (exists k :: 0 <= k < 12 && Entries(selected)[k].isActive) <==> selected in Months
  {
    if selected in Months {
      var k :| 0 <= k < 12 && Months[k] == selected;
      assert Entries(selected)[k].isActive;
    }
  }

  /** Without a month parameter exactly one entry is active: the current month's. */
  lemma DefaultActivatesCurrent(param: Option<string>, current: MonthIndex)
    requires param.None? || param.value == ""
    ensures Menu(param, current)[current].isActive
    ensures forall k :: 0 <= k < 12 && k != current ==> !Menu(param, current)[k].isActive
  {
    MonthsDistinct();
  }

  /** A month name in the URL activates exactly that name's entry. */
  lemma ParamActivatesItsEntry(month: string, current: MonthIndex, k: int)
    requires 0 <= k < 12 && month == Months[k]
    ensures Menu(Some(month), current)[k].isActive
    ensures forall j :: 0 <= j < 12 && j != k ==> !Menu(Some(month), current)[j].isActive
  {
    MonthsDistinct();
  }
}
