// The app shell: the tab that selects which calculator is shown, the header
// lookup of the tab's name, and the simulated "online users" counter that
// drifts by a small random step on every timer tick, kept within [300, 800].
// `Math.random()` is a parameter in [0, 1) and the 4-second timer is a caller
// that invokes `Tick` repeatedly.

module AppShell {

  datatype CalculatorType = CompoundInterest | LoanAmortization | SavingsGoal

  datatype Tab = Tab(id: CalculatorType, name: string)

  datatype Option<T> = None | Some(value: T)

  const MinOnline: int := 300
  const MaxOnline: int := 800

  /** The navigation entries, in display order. */
  const Tabs: seq<Tab> := [
    Tab(CompoundInterest, "Juros Compostos"),
    Tab(LoanAmortization, "Financiamento"),
    Tab(SavingsGoal, "Metas de Economia")
  ]

  /** `Array.prototype.find` on the tab ids: the first entry with `id`, if any. */
  function FindTab(tabs: seq<Tab>, id: CalculatorType): (found: Option<Tab>)
    ensures found.None? <==> forall k :: 0 <= k < |tabs| ==> tabs[k].id != id
    ensures found.Some? ==> exists k :: 0 <= k < |tabs| && tabs[k] == found.value && tabs[k].id == id
                                  && forall j :: 0 <= j < k ==> tabs[j].id != id
  {
    if tabs == [] then None
    else if tabs[0].id == id then Some(tabs[0])
    else
      var rest := FindTab(tabs[1..], id);
      assert forall k :: 1 <= k < |tabs| ==> tabs[k] == tabs[1..][k - 1];
      rest
  }

  /** Every calculator has exactly one tab, so the header lookup always
      finds the tab of the active calculator. */
  lemma {:induction false} EveryTypeHasATab(id: CalculatorType)
    ensures FindTab(Tabs, id).Some? && FindTab(Tabs, id).value.id == id
    ensures forall j, k :: 0 <= j < k < |Tabs| ==> Tabs[j].id != Tabs[k].id
  {
    match id
    case CompoundInterest => assert Tabs[0].id == id;
    case LoanAmortization => assert Tabs[1].id == id;
    case SavingsGoal => assert Tabs[2].id == id;
  }

  /** The calculators the page shows for `active`: one conditional per
      calculator, in page order. Exactly one is shown, the active one. */
  function Rendered(active: CalculatorType): (shown: seq<CalculatorType>)
    ensures shown == [active]
  {
    (if active == CompoundInterest then [CompoundInterest] else [])
    + (if active == LoanAmortization then [LoanAmortization] else [])
    + (if active == SavingsGoal then [SavingsGoal] else [])
  }

  /** `Math.min(800, Math.max(300, value))`. */
  function Clamp(value: int): (r: int)
    ensures MinOnline <= r <= MaxOnline
    ensures MinOnline <= value <= MaxOnline ==> r == value
    ensures value < MinOnline ==> r == MinOnline
    ensures value > MaxOnline ==> r == MaxOnline
  {
    var low := if MinOnline >= value then MinOnline else value;
    if MaxOnline <= low then MaxOnline else low
  }

  /** `Math.floor(random * 7) - 3`: a drift between -3 and +3. */
  function Change(random: real): (change: int)
    requires 0.0 <= random < 1.0
    ensures -3 <= change <= 3
  {
    (random * 7.0).Floor - 3
  }

  /** Every drift from -3 to +3 is drawn for some random value. */
  lemma ChangeCoversRange(change: int)
    requires -3 <= change <= 3
    ensures 0.0 <= (change + 3) as real / 7.0 < 1.0
    ensures Change((change + 3) as real / 7.0) == change
  {
    assert (change + 3) as real / 7.0 * 7.0 == (change + 3) as real;
  }

  /** `Math.floor(random * (800 - 300 + 1)) + 300`: a start within the range. */
  function InitialOnlineUsers(random: real): (users: int)
    requires 0.0 <= random < 1.0
    ensures MinOnline <= users <= MaxOnline
  {
    (random * ((MaxOnline - MinOnline + 1) as real)).Floor + MinOnline
  }

  /** From a count within the range, one tick moves it by at most 3. */
  lemma TickIsSmall(previous: int, random: real)
    requires MinOnline <= previous <= MaxOnline && 0.0 <= random < 1.0
    ensures -3 <= Clamp(previous + Change(random)) - previous <= 3
  {
  }

  /** The state App keeps between renders. */
  class App {
    var activeTab: CalculatorType
    var onlineUsers: int

    ghost predicate Valid()
      reads this
    {
      MinOnline <= onlineUsers <= MaxOnline
    }

    /** The first render: the compound-interest tab and a random start count. */
    constructor (random: real)
      requires 0.0 <= random < 1.0
      ensures Valid()
      ensures activeTab == CompoundInterest
      ensures onlineUsers == InitialOnlineUsers(random)
    {
      activeTab := CompoundInterest;
      onlineUsers := InitialOnlineUsers(random);
    }

    /** One timer tick: drift by a random step and clamp to the range. */
    method Tick(random: real)
      requires 0.0 <= random < 1.0
      modifies this
      ensures Valid()
      ensures onlineUsers == Clamp(old(onlineUsers) + Change(random))
      ensures old(Valid()) ==> -3 <= onlineUsers - old(onlineUsers) <= 3
      ensures activeTab == old(activeTab)
    {
      var change := Change(random);
      var newValue := onlineUsers + change;
      onlineUsers := Clamp(newValue);
    }

    /** A click on the tab with `id`. */
    method SelectTab(id: CalculatorType)
      modifies this
      ensures activeTab == id
      ensures onlineUsers == old(onlineUsers)
    {
      activeTab := id;
    }

    /** The header title: the name of the active tab. */
    function Title(): (title: string)
      reads this
      ensures exists k :: 0 <= k < |Tabs| && Tabs[k].id == activeTab && Tabs[k].name == title
    {
      EveryTypeHasATab(activeTab);
      FindTab(Tabs, activeTab).value.name
    }
  }
}
