// Loading and unloading the kernel modules: every step can fail, and the unwind
// gives back exactly what was acquired.
module KernelStartup {

  // --- what a module holds of the kernel ---

  datatype Kind =
    | DevTable | Memory | Device | Chip | Notifier | WireDev | TtyAllocated | TtyRegistered
    | BusType | RootKobj | RootGroup | BusesKobj | Bus0Kobj | Bus0Group | DevicesKobj

  datatype Res = Res(kind: Kind, index: nat)

  // Acquiring what is held, or releasing what is not, is an error.
  class Kernel {
    var held: set<Res>

    method Acquire(k: Kind, i: nat)
      requires Res(k, i) !in held
      modifies this
      ensures held == old(held) + {Res(k, i)}
    {
      held := held + {Res(k, i)};
    }

    method Release(k: Kind, i: nat)
      requires Res(k, i) in held
      modifies this
      ensures held == old(held) - {Res(k, i)}
    {
      held := held - {Res(k, i)};
    }
  }

  // What device i of a module holds.
  function Of(kinds: set<Kind>, i: nat): set<Res> {
    set k | k in kinds :: Res(k, i)
  }

  ghost function Upto(kinds: set<Kind>, n: nat): (s: set<Res>)
    ensures forall r :: r in s <==> r.kind in kinds && r.index < n
  {
    if n == 0 then {} else Upto(kinds, n - 1) + Of(kinds, n - 1)
  }

  predicate NoneOf(kinds: set<Kind>, held: set<Res>) {
    forall r | r in held :: r.kind !in kinds
  }

  predicate FreeAt(kinds: set<Kind>, held: set<Res>, i: nat) {
    forall r | r in held && r.index == i :: r.kind !in kinds
  }

  // The devices so far leave the next one free.
  lemma NextIsFree(kinds: set<Kind>, held: set<Res>, n: nat)
    requires NoneOf(kinds, held)
    ensures FreeAt(kinds, held + Upto(kinds, n), n)
    ensures held + Upto(kinds, n + 1) == held + Upto(kinds, n) + Of(kinds, n)
  {}

  const GPIO_KINDS: set<Kind> := {Memory, Device, Chip, Notifier}
  const UART_KINDS: set<Kind> := {Memory, Device, Notifier, WireDev}

  const MAX_GPIO: nat := 32
  const MAX_UARTS: nat := 4

  // --- GPIO ---

  datatype GpioFault = GpioFine | NoMemory | NoDevice | NoChip | NoNotifier

  // device_unregister also drops the last reference, which frees the memory.
  method UnregisterDevice(k: Kernel, i: nat)
    requires Res(Device, i) in k.held && Res(Memory, i) in k.held
    modifies k
    ensures k.held == old(k.held) - {Res(Device, i), Res(Memory, i)}
  {
    k.Release(Device, i);
    k.Release(Memory, i);
  }

  // One round of the loop of gpio_init: a whole device or nothing.
  method AddBank(k: Kernel, i: nat, f: GpioFault) returns (ok: bool)
    requires FreeAt(GPIO_KINDS, k.held, i)
    modifies k
    ensures ok <==> f.GpioFine?
    ensures k.held == old(k.held) + if ok then Of(GPIO_KINDS, i) else {}
  {
    if f.NoMemory? {
      return false;
    }
    k.Acquire(Memory, i);
    if f.NoDevice? {
      k.Release(Memory, i);
      return false;
    }
    k.Acquire(Device, i);
    if f.NoChip? {
      UnregisterDevice(k, i);
      return false;
    }
    k.Acquire(Chip, i);
    if f.NoNotifier? {
      k.Release(Chip, i);
      UnregisterDevice(k, i);
      return false;
    }
    k.Acquire(Notifier, i);
    ok := true;
  }

  // One round of the unwind of gpio_init, and of gpio_exit.
  method RemoveBank(k: Kernel, i: nat)
    requires Of(GPIO_KINDS, i) <= k.held
    modifies k
    ensures k.held == old(k.held) - Of(GPIO_KINDS, i)
  {
    assert forall c | c in GPIO_KINDS :: Res(c, i) in Of(GPIO_KINDS, i);
    k.Release(Notifier, i);
    k.Release(Chip, i);
    UnregisterDevice(k, i);
  }

  method RemoveBanks(k: Kernel, n: nat)
    requires Upto(GPIO_KINDS, n) <= k.held
    modifies k
    ensures k.held == old(k.held) - Upto(GPIO_KINDS, n)
  {
    var i: nat := n;
    while i > 0
      invariant i <= n && k.held == old(k.held) - (Upto(GPIO_KINDS, n) - Upto(GPIO_KINDS, i))
    {
      i := i - 1;
      assert Of(GPIO_KINDS, i) <= Upto(GPIO_KINDS, i + 1);
      RemoveBank(k, i);
    }
  }

  // The first n devices are there; if ok all of them, otherwise device n failed.
  method AddBanks(k: Kernel, num: nat, faults: seq<GpioFault>) returns (ok: bool, n: nat)
    requires |faults| == num && NoneOf(GPIO_KINDS, k.held)
    modifies k
    ensures n <= num && k.held == old(k.held) + Upto(GPIO_KINDS, n)
    ensures forall i | 0 <= i < n :: faults[i].GpioFine?
    ensures if ok then n == num else n < num && !faults[n].GpioFine?
  {
    n := 0;
    ok := true;
    while n < num
      invariant n <= num && forall i | 0 <= i < n :: faults[i].GpioFine?
      invariant k.held == old(k.held) + Upto(GPIO_KINDS, n)
    {
      NextIsFree(GPIO_KINDS, old(k.held), n);
      ok := AddBank(k, n, faults[n]);
      if !ok {
        return;
      }
      n := n + 1;
    }
  }

  method GpioInit(k: Kernel, num: nat, tableFits: bool, faults: seq<GpioFault>) returns (ok: bool)
    requires |faults| == num && NoneOf(GPIO_KINDS + {DevTable}, k.held)
    modifies k
    ensures ok <==> 1 <= num <= MAX_GPIO && tableFits && forall i | 0 <= i < num :: faults[i].GpioFine?
    ensures k.held == old(k.held) + if ok then {Res(DevTable, 0)} + Upto(GPIO_KINDS, num) else {}
  {
    if num == 0 || num > MAX_GPIO || !tableFits {
      return false;
    }
    k.Acquire(DevTable, 0);
    var n;
    ok, n := AddBanks(k, num, faults);
    if !ok {
      RemoveBanks(k, n);
      k.Release(DevTable, 0);
    }
  }

  method GpioExit(k: Kernel, num: nat)
    requires {Res(DevTable, 0)} + Upto(GPIO_KINDS, num) <= k.held
    modifies k
    ensures k.held == old(k.held) - {Res(DevTable, 0)} - Upto(GPIO_KINDS, num)
  {
    RemoveBanks(k, num);
    k.Release(DevTable, 0);
  }

  // Loading and then unloading leaves the kernel as it was, whether or not it loads.
  method GpioCycle(k: Kernel, num: nat, tableFits: bool, faults: seq<GpioFault>) returns (ok: bool)
    requires |faults| == num && NoneOf(GPIO_KINDS + {DevTable}, k.held)
    modifies k
    ensures k.held == old(k.held)
  {
    ok := GpioInit(k, num, tableFits, faults);
    if ok {
      GpioExit(k, num);
    }
  }

  // --- UART ---

  datatype UartFault = UartFine | NoUartMemory | NoUartDevice | NoUartNotifier | NoWire

  method AddUart(k: Kernel, i: nat, f: UartFault) returns (ok: bool)
    requires FreeAt(UART_KINDS, k.held, i)
    modifies k
    ensures ok <==> f.UartFine?
    ensures k.held == old(k.held) + if ok then Of(UART_KINDS, i) else {}
  {
    if f.NoUartMemory? {
      return false;
    }
    k.Acquire(Memory, i);
    if f.NoUartDevice? {
      k.Release(Memory, i);
      return false;
    }
    k.Acquire(Device, i);
    if f.NoUartNotifier? {
      UnregisterDevice(k, i);
      return false;
    }
    k.Acquire(Notifier, i);
    if f.NoWire? {
      k.Release(Notifier, i);
      UnregisterDevice(k, i);
      return false;
    }
    k.Acquire(WireDev, i);
    ok := true;
  }

  method RemoveUart(k: Kernel, i: nat)
    requires Of(UART_KINDS, i) <= k.held
    modifies k
    ensures k.held == old(k.held) - Of(UART_KINDS, i)
  {
    assert forall c | c in UART_KINDS :: Res(c, i) in Of(UART_KINDS, i);
    k.Release(WireDev, i);
    k.Release(Notifier, i);
    UnregisterDevice(k, i);
  }

  method RemoveUarts(k: Kernel, n: nat)
    requires Upto(UART_KINDS, n) <= k.held
    modifies k
    ensures k.held == old(k.held) - Upto(UART_KINDS, n)
  {
    var i: nat := n;
    while i > 0
      invariant i <= n && k.held == old(k.held) - (Upto(UART_KINDS, n) - Upto(UART_KINDS, i))
    {
      i := i - 1;
      assert Of(UART_KINDS, i) <= Upto(UART_KINDS, i + 1);
      RemoveUart(k, i);
    }
  }

  method AddUarts(k: Kernel, num: nat, faults: seq<UartFault>) returns (ok: bool, i: nat)
    requires |faults| == num && NoneOf(UART_KINDS, k.held)
    modifies k
    ensures i <= num && k.held == old(k.held) + Upto(UART_KINDS, i)
    ensures forall j | 0 <= j < i :: faults[j].UartFine?
    ensures if ok then i == num else i < num && !faults[i].UartFine?
  {
    i := 0;
    ok := true;
    while i < num
      invariant i <= num && forall j | 0 <= j < i :: faults[j].UartFine?
      invariant k.held == old(k.held) + Upto(UART_KINDS, i)
    {
      NextIsFree(UART_KINDS, old(k.held), i);
      ok := AddUart(k, i, faults[i]);
      if !ok {
        return;
      }
      i := i + 1;
    }
  }

  method UartInit(k: Kernel, num: nat, driverFits: bool, faults: seq<UartFault>, registers: bool) returns (ok: bool)
    requires |faults| == num && NoneOf(UART_KINDS + {TtyAllocated, TtyRegistered}, k.held)
    modifies k
    ensures ok <==> 1 <= num <= MAX_UARTS && driverFits && registers && forall i | 0 <= i < num :: faults[i].UartFine?
    ensures k.held == old(k.held) + if ok then {Res(TtyAllocated, 0), Res(TtyRegistered, 0)} + Upto(UART_KINDS, num) else {}
  {
    if num == 0 || num > MAX_UARTS || !driverFits {
      return false;
    }
    k.Acquire(TtyAllocated, 0);
    var i;
    ok, i := AddUarts(k, num, faults);
    if ok && registers {
      k.Acquire(TtyRegistered, 0);
      return;
    }
    RemoveUarts(k, i);
    k.Release(TtyAllocated, 0);
    ok := false;
  }

  method UartExit(k: Kernel, num: nat)
    requires {Res(TtyAllocated, 0), Res(TtyRegistered, 0)} + Upto(UART_KINDS, num) <= k.held
    modifies k
    ensures k.held == old(k.held) - {Res(TtyAllocated, 0), Res(TtyRegistered, 0)} - Upto(UART_KINDS, num)
  {
    k.Release(TtyRegistered, 0);
    RemoveUarts(k, num);
    k.Release(TtyAllocated, 0);
  }

  method UartCycle(k: Kernel, num: nat, driverFits: bool, faults: seq<UartFault>, registers: bool) returns (ok: bool)
    requires |faults| == num && NoneOf(UART_KINDS + {TtyAllocated, TtyRegistered}, k.held)
    modifies k
    ensures k.held == old(k.held)
  {
    ok := UartInit(k, num, driverFits, faults, registers);
    if ok {
      UartExit(k, num);
    }
  }

  // --- core ---

  function CoreAll(): set<Res> {
    {Res(BusType, 0), Res(RootKobj, 0), Res(RootGroup, 0), Res(BusesKobj, 0), Res(Bus0Kobj, 0), Res(Bus0Group, 0),
     Res(DevicesKobj, 0)}
  }

  // works counts the steps that succeed before one fails.
  method CoreInit(k: Kernel, works: nat) returns (ok: bool)
    requires CoreAll() !! k.held
    modifies k
    ensures ok <==> works >= 7
    ensures k.held == old(k.held) + if ok then CoreAll() else {}
  {
    if works == 0 {
      return false;
    }
    k.Acquire(BusType, 0);
    ok := RootInit(k, works - 1);
    if !ok {
      k.Release(BusType, 0);
    }
  }

  method RootInit(k: Kernel, works: nat) returns (ok: bool)
    requires CoreAll() - {Res(BusType, 0)} !! k.held
    modifies k
    ensures ok <==> works >= 6
    ensures k.held == old(k.held) + if ok then CoreAll() - {Res(BusType, 0)} else {}
  {
    if works == 0 {
      return false;
    }
    k.Acquire(RootKobj, 0);
    ok := false;
    if works > 1 {
      k.Acquire(RootGroup, 0);
      ok := BusesInit(k, works - 2);
      if ok {
        return;
      }
      k.Release(RootGroup, 0);
    }
    k.Release(RootKobj, 0);
  }

  method BusesInit(k: Kernel, works: nat) returns (ok: bool)
    requires {Res(BusesKobj, 0), Res(Bus0Kobj, 0), Res(Bus0Group, 0), Res(DevicesKobj, 0)} !! k.held
    modifies k
    ensures ok <==> works >= 4
    ensures k.held == old(k.held) + if ok then {Res(BusesKobj, 0), Res(Bus0Kobj, 0), Res(Bus0Group, 0), Res(DevicesKobj, 0)} else {}
  {
    if works == 0 {
      return false;
    }
    k.Acquire(BusesKobj, 0);
    if works > 1 {
      k.Acquire(Bus0Kobj, 0);
      if works > 2 {
        k.Acquire(Bus0Group, 0);
        if works > 3 {
          k.Acquire(DevicesKobj, 0);
          return true;
        }
        k.Release(Bus0Group, 0);
      }
      k.Release(Bus0Kobj, 0);
    }
    k.Release(BusesKobj, 0);
    ok := false;
  }

  method CoreExit(k: Kernel)
    requires CoreAll() <= k.held
    modifies k
    ensures k.held == old(k.held) - CoreAll()
  {
    k.Release(DevicesKobj, 0);
    k.Release(Bus0Group, 0);
    k.Release(Bus0Kobj, 0);
    k.Release(BusesKobj, 0);
    k.Release(RootGroup, 0);
    k.Release(RootKobj, 0);
    k.Release(BusType, 0);
  }

  method CoreCycle(k: Kernel, works: nat) returns (ok: bool)
    requires CoreAll() !! k.held
    modifies k
    ensures k.held == old(k.held)
  {
    ok := CoreInit(k, works);
    if ok {
      CoreExit(k);
    }
  }
}
