/** The mock dashboard store (store/slices/dashboardSlice.ts): the stat cards,
    the recent transactions and a loading flag, seeded with fixed data, and the
    three setters `setStats`, `setTransactions` and `setLoading`. The exported
    reducer is the pure function `Reduce`; the store whose draft the setters
    assign is the class `DashboardStore`. */
module DashboardSlice {

  /** The union `'up' | 'down'`. */
  datatype Trend = Up | Down

  /** The union `'completed' | 'pending' | 'failed'`. */
  datatype Status = Completed | Pending | Failed

  /** A stat card; `caption` is the source's `label` (a Dafny keyword), and
      `value` and `change` are display strings. */
  datatype Stat = Stat(id: string, caption: string, value: string, change: string, trend: Trend)

  /** A transaction row; `amount` and `date` are display strings. */
  datatype Transaction = Transaction(id: string, user: string, amount: string, status: Status, date: string)

  datatype DashboardState = DashboardState(stats: seq<Stat>, transactions: seq<Transaction>, isLoading: bool)

  const MockStats: seq<Stat> := [
    Stat("1", "Total Revenue", "$45,231.89", "+20.1%", Up),
    Stat("2", "Active Users", "2,350", "+180", Up),
    Stat("3", "Transactions", "12,234", "+19%", Up),
    Stat("4", "Avg. Order Value", "$89.00", "-4%", Down)
  ]

  const MockTransactions: seq<Transaction> := [
    Transaction("1", "Alice Johnson", "$120.00", Completed, "2024-01-15"),
    Transaction("2", "Bob Smith", "$89.50", Pending, "2024-01-15"),
    Transaction("3", "Charlie Brown", "$250.00", Completed, "2024-01-14"),
    Transaction("4", "Diana Prince", "$45.00", Failed, "2024-01-14"),
    Transaction("5", "Ethan Hunt", "$199.99", Completed, "2024-01-13"),
    Transaction("6", "Fiona Gallagher", "$75.50", Pending, "2024-01-13"),
    Transaction("7", "George Miller", "$310.00", Completed, "2024-01-12"),
    Transaction("8", "Hannah Baker", "$55.00", Completed, "2024-01-12")
  ]

  const InitialState := DashboardState(MockStats, MockTransactions, false)

  /** The seed: four stats with ids "1".."4", eight transactions with ids
      "1".."8", not loading. Trend and status range over their unions by
      construction of `Trend` and `Status`. */
  lemma InitialStateSeeded()
    ensures |InitialState.stats| == 4 && |InitialState.transactions| == 8
    ensures seq(4, i requires 0 <= i < 4 => InitialState.stats[i].id) == ["1", "2", "3", "4"]
    ensures seq(8, i requires 0 <= i < 8 => InitialState.transactions[i].id)
         == ["1", "2", "3", "4", "5", "6", "7", "8"]
    ensures !InitialState.isLoading
  {
  }

  /** The three actions the slice exports. */
  datatype DashboardAction =
    | SetStats(stats: seq<Stat>)
    | SetTransactions(transactions: seq<Transaction>)
    | SetLoading(isLoading: bool)

  /** The slice's reducer: each action replaces its own field and no other. */
  function Reduce(s: DashboardState, a: DashboardAction): (r: DashboardState)
    ensures a.SetStats? ==> r.stats == a.stats
    ensures a.SetTransactions? ==> r.transactions == a.transactions
    ensures a.SetLoading? ==> r.isLoading == a.isLoading
    ensures !a.SetStats? ==> r.stats == s.stats
    ensures !a.SetTransactions? ==> r.transactions == s.transactions
    ensures !a.SetLoading? ==> r.isLoading == s.isLoading
  {
    match a
    case SetStats(st) => s.(stats := st)
    case SetTransactions(t) => s.(transactions := t)
    case SetLoading(b) => s.(isLoading := b)
  }

  /** Applying a setter twice with the same payload is applying it once. */
  lemma ReduceIdempotent(s: DashboardState, a: DashboardAction)
    ensures Reduce(Reduce(s, a), a) == Reduce(s, a)
  {
  }

  /** Two setters of different fields commute. */
  lemma ReduceCommutes(s: DashboardState, a: DashboardAction, b: DashboardAction)
    requires (a.SetStats? && b.SetTransactions?) || (a.SetStats? && b.SetLoading?) || (a.SetTransactions? && b.SetLoading?)
    ensures Reduce(Reduce(s, a), b) == Reduce(Reduce(s, b), a)
  {
  }

  /** The state after a run of actions, applied first to last. */
  function ReduceAll(s: DashboardState, acts: seq<DashboardAction>): DashboardState
    decreases |acts|
  {
    if acts == [] then s else Reduce(ReduceAll(s, acts[..|acts| - 1]), acts[|acts| - 1])
  }

  /** The payload of the last `setStats` in `acts`, or `d` when there is none. */
  function LastStats(acts: seq<DashboardAction>, d: seq<Stat>): seq<Stat>
    decreases |acts|
  {
    if acts == [] then d
    else if acts[|acts| - 1].SetStats? then acts[|acts| - 1].stats
    else LastStats(acts[..|acts| - 1], d)
  }

  /** The payload of the last `setTransactions` in `acts`, or `d`. */
  function LastTransactions(acts: seq<DashboardAction>, d: seq<Transaction>): seq<Transaction>
    decreases |acts|
  {
    if acts == [] then d
    else if acts[|acts| - 1].SetTransactions? then acts[|acts| - 1].transactions
    else LastTransactions(acts[..|acts| - 1], d)
  }

  /** The payload of the last `setLoading` in `acts`, or `d`. */
  function LastLoading(acts: seq<DashboardAction>, d: bool): bool
    decreases |acts|
  {
    if acts == [] then d
    else if acts[|acts| - 1].SetLoading? then acts[|acts| - 1].isLoading
    else LastLoading(acts[..|acts| - 1], d)
  }

  /** The fields are independent: after any run, each holds what the last
      setter of that field wrote, whatever the other setters did. */
  lemma {:induction false} LastWriteWins(s: DashboardState, acts: seq<DashboardAction>)
    ensures ReduceAll(s, acts).stats == LastStats(acts, s.stats)
    ensures ReduceAll(s, acts).transactions == LastTransactions(acts, s.transactions)
    ensures ReduceAll(s, acts).isLoading == LastLoading(acts, s.isLoading)
    decreases |acts|
  {
    if acts != [] {
      LastWriteWins(s, acts[..|acts| - 1]);
    }
  }

  /** The store itself: the fields the setters assign on the draft. */
  class DashboardStore {
    var stats: seq<Stat>
    var transactions: seq<Transaction>
    var isLoading: bool

    function State(): DashboardState
      reads this
    {
      DashboardState(stats, transactions, isLoading)
    }

    /** `initialState`. */
    constructor ()
      ensures State() == InitialState
    {
      stats := MockStats;
      transactions := MockTransactions;
      isLoading := false;
    }

    /** `setStats`: replace the stat list. */
    method SetStats(s: seq<Stat>)
      modifies this
      ensures stats == s && transactions == old(transactions) && isLoading == old(isLoading)
      ensures State() == Reduce(old(State()), DashboardAction.SetStats(s))
    {
      stats := s;
    }

    /** `setTransactions`: replace the transaction list. */
    method SetTransactions(t: seq<Transaction>)
      modifies this
      ensures transactions == t && stats == old(stats) && isLoading == old(isLoading)
      ensures State() == Reduce(old(State()), DashboardAction.SetTransactions(t))
    {
      transactions := t;
    }

    /** `setLoading`: set the loading flag. */
    method SetLoading(b: bool)
      modifies this
      ensures isLoading == b && stats == old(stats) && transactions == old(transactions)
      ensures State() == Reduce(old(State()), DashboardAction.SetLoading(b))
    {
      isLoading := b;
    }
  }
}
