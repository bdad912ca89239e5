/** The stored state of the application: the records kept besides the items and the
    warehouse object that holds them all (the localStorage blob of the source). */
module Store {
  import opened Common
  import opened Config
  import opened Items

  /** A charge against a collaborator for a lost or damaged item. */
  datatype Debit = Debit(
    id: string,
    collaboratorId: string,
    itemId: string,
    itemName: string,
    quantity: int,
    amount: real,
    reason: string,
    date: int,
    isSettled: bool,
    settledDate: Option<int>)

  datatype Collaborator = Collaborator(id: string, name: string, role: string, registration: string, createdAt: int)

  /** An item allocated to a service order, with the allocation it created. */
  datatype OrderLine = OrderLine(
    itemId: string,
    quantity: int,
    allocationDate: int,
    allocationId: string,
    returned: bool,
    returnDate: Option<int>)

  datatype ServiceOrder = ServiceOrder(
    id: string,
    customer: string,
    status: string,
    openDate: int,
    closeDate: Option<int>,
    technicianId: string,
    description: string,
    lines: seq<OrderLine>)

  datatype LogEntry = LogEntry(timestamp: int, action: string, details: string, user: string)

  /** The records the stock operations change together, and the counter that mints ids. */
  datatype Ledger = Ledger(items: seq<Item>, debits: seq<Debit>, orders: seq<ServiceOrder>, next: nat)

  /** What an operation returns (true for success) and the records it leaves. */
  datatype Outcome = Outcome(ok: bool, ledger: Ledger)

  /** The id minted from counter value n; it stands for crypto.randomUUID(). */
  function MintId(n: nat): string
  {
    "id-" + NatToString(n)
  }

  function CollaboratorIndex(cs: seq<Collaborator>, id: string): (r: Option<nat>)
    ensures r.Some? ==> r.value < |cs| && cs[r.value].id == id
    ensures r.None? ==> forall k :: 0 <= k < |cs| ==> cs[k].id != id
  {
    FirstIndex(cs, (c: Collaborator) => c.id == id)
  }

  /** getCollaboratorById(id)?.name || 'Desconhecido' */
  function CollaboratorName(cs: seq<Collaborator>, id: string): string
  {
    match CollaboratorIndex(cs, id)
    case Some(k) => if cs[k].name != "" then cs[k].name else "Desconhecido"
    case None => "Desconhecido"
  }

  function OrderIndex(os: seq<ServiceOrder>, id: string): (r: Option<nat>)
    ensures r.Some? ==> r.value < |os| && os[r.value].id == id
    ensures r.None? ==> forall k :: 0 <= k < |os| ==> os[k].id != id
  {
    FirstIndex(os, (o: ServiceOrder) => o.id == id)
  }

  class Warehouse {
    var items: seq<Item>
    var debits: seq<Debit>
    var collaborators: seq<Collaborator>
    var serviceOrders: seq<ServiceOrder>
    var logs: seq<LogEntry>
    /** The settings object as stored; readers see GetSettings(storedSettings). */
    var storedSettings: map<string, Value>
    var nextId: nat
    /** ITEM_HISTORY_LIMIT and LOGS_LIMIT. */
    const historyLimit: nat
    const logsLimit: nat

    /** Every kit has a defined stock figure. */
    ghost predicate Valid()
      reads this`items
    {
      AllKitsReady(items)
    }

    function Settings(): map<string, Value>
      reads this`storedSettings
    {
      GetSettings(storedSettings)
    }

    function LedgerOf(): Ledger
      reads this`items, this`debits, this`serviceOrders, this`nextId
    {
      Ledger(items, debits, serviceOrders, nextId)
    }

    /** An empty store: nothing saved yet. */
    constructor(historyLimit: nat, logsLimit: nat)
      ensures Valid()
      ensures items == [] && debits == [] && collaborators == [] && serviceOrders == [] && logs == []
      ensures storedSettings == map[] && nextId == 0
      ensures this.historyLimit == historyLimit && this.logsLimit == logsLimit
    {
      items := [];
      debits := [];
      collaborators := [];
      serviceOrders := [];
      logs := [];
      storedSettings := map[];
      nextId := 0;
      this.historyLimit := historyLimit;
      this.logsLimit := logsLimit;
    }

    method FreshId() returns (id: string)
      modifies this`nextId
      ensures id == MintId(old(nextId)) && nextId == old(nextId) + 1
    {
      id := MintId(nextId);
      nextId := nextId + 1;
    }

    /** Saves the records a stock operation worked on. */
    method SaveLedger(l: Ledger)
      modifies this`items, this`debits, this`serviceOrders, this`nextId
      ensures LedgerOf() == l
    {
      items, debits, serviceOrders, nextId := l.items, l.debits, l.orders, l.next;
    }
  }
}
