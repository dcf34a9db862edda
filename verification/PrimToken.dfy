/** The PRM ledger: the "Methods" section of EIP-20 plus the minter and burner roles. */
module PrimToken {
  import opened Evm

  datatype TokenError =
    | NotOwner
    | NotMinter
    | NotBurner
    | ZeroAddress
    | InsufficientBalance
    | InsufficientAllowance
    | SupplyOverflow

  /** The token's storage as a value. */
  datatype Ledger = Ledger(
    owner: Address,
    minter: Address,
    burner: Address,
    balances: map<Address, nat>,
    supply: nat,
    allowances: map<(Address, Address), nat>)
  {
    function BalanceOf(a: Address): nat {
      At(balances, a, 0)
    }

    function Allowance(holder: Address, spender: Address): nat {
      At(allowances, (holder, spender), 0)
    }

    /** Moves `amount` from one balance to another, which may be the same one. */
    function Moved(from: Address, to: Address, amount: nat): Ledger
      requires amount <= BalanceOf(from)
    {
      var debited := balances[from := BalanceOf(from) - amount];
      this.(balances := debited[to := At(debited, to, 0) + amount])
    }

    function Transfer(from: Address, to: Address, amount: nat): Outcome<Ledger, TokenError> {
      if from == ZERO_ADDRESS || to == ZERO_ADDRESS then Reverted(ZeroAddress)
      else if BalanceOf(from) < amount then Reverted(InsufficientBalance)
      else Returned(Moved(from, to, amount))
    }

    function Approve(holder: Address, spender: Address, amount: nat): Outcome<Ledger, TokenError> {
      if holder == ZERO_ADDRESS || spender == ZERO_ADDRESS then Reverted(ZeroAddress)
      else Returned(this.(allowances := allowances[(holder, spender) := amount]))
    }

    /** Uses up part of an allowance; the maximal one stands for unlimited. */
    function Spent(spender: Address, holder: Address, amount: nat): Outcome<Ledger, TokenError> {
      var allowed := Allowance(holder, spender);
      if allowed == MAX_UINT256 then Returned(this)
      else if allowed < amount then Reverted(InsufficientAllowance)
      else Approve(holder, spender, allowed - amount)
    }

    function TransferFrom(spender: Address, from: Address, to: Address, amount: nat): Outcome<Ledger, TokenError> {
      match Spent(spender, from, amount)
      case Reverted(e) => Reverted(e)
      case Returned(l) => l.Transfer(from, to, amount)
    }

    function Mint(caller: Address, to: Address, amount: nat): Outcome<Ledger, TokenError> {
      if caller != minter then Reverted(NotMinter)
      else if to == ZERO_ADDRESS then Reverted(ZeroAddress)
      else if supply + amount > MAX_UINT256 then Reverted(SupplyOverflow)
      else Returned(this.(supply := supply + amount, balances := balances[to := BalanceOf(to) + amount]))
    }

    /** The second disjunct of the balance guard never decides for a balanced ledger. */
    function Burn(caller: Address, from: Address, amount: nat): Outcome<Ledger, TokenError> {
      if caller != burner then Reverted(NotBurner)
      else if from == ZERO_ADDRESS then Reverted(ZeroAddress)
      else if BalanceOf(from) < amount || supply < amount then Reverted(InsufficientBalance)
      else Returned(this.(supply := supply - amount, balances := balances[from := BalanceOf(from) - amount]))
    }

    /** The supply is exactly what the holders have, and fits its word. */
    ghost predicate Balanced() {
      Sum(balances) == supply <= MAX_UINT256
    }
  }

  /** A ledger before any mint. */
  function Genesis(owner: Address): Ledger {
    Ledger(owner, ZERO_ADDRESS, ZERO_ADDRESS, map[], 0, map[])
  }

  /** A transfer changes the two balances by the amount, nobody else's, and no total. */
  lemma TransferEffect(l: Ledger, from: Address, to: Address, amount: nat, l': Ledger)
    requires l.Transfer(from, to, amount) == Returned(l')
    ensures l' == l.(balances := l'.balances)
    ensures forall a ::
      l'.BalanceOf(a) + (if a == from then amount else 0) == l.BalanceOf(a) + (if a == to then amount else 0)
    ensures l.Balanced() ==> l'.Balanced()
  {
    var debited := l.balances[from := l.BalanceOf(from) - amount];
    SumWrite(l.balances, from, l.BalanceOf(from) - amount);
    SumBoundsEntry(l.balances, from);
    SumWrite(debited, to, At(debited, to, 0) + amount);
  }

  lemma PulledFromSomeone(l: Ledger, spender: Address, from: Address, to: Address, amount: nat)
    requires l.TransferFrom(spender, from, to, amount).Returned?
    ensures from != ZERO_ADDRESS && to != ZERO_ADDRESS
  {
  }

  /** Pulling tokens moves balances like a transfer, uses up as much of the one allowance
      unless that is the unlimited one, and touches no other. */
  lemma TransferFromEffect(l: Ledger, spender: Address, from: Address, to: Address, amount: nat, l': Ledger)
    requires l.TransferFrom(spender, from, to, amount) == Returned(l')
    ensures amount <= l.Allowance(from, spender) || l.Allowance(from, spender) == MAX_UINT256
    ensures from != ZERO_ADDRESS && to != ZERO_ADDRESS && amount <= l.BalanceOf(from)
    ensures l' == l.(balances := l'.balances, allowances := l'.allowances)
    ensures forall a ::
      l'.BalanceOf(a) + (if a == from then amount else 0) == l.BalanceOf(a) + (if a == to then amount else 0)
    ensures forall h: Address, s: Address :: (h, s) != (from, spender) ==> l'.Allowance(h, s) == l.Allowance(h, s)
    ensures l'.Allowance(from, spender) ==
            l.Allowance(from, spender) - if l.Allowance(from, spender) == MAX_UINT256 then 0 else amount
    ensures l.Balanced() ==> l'.Balanced()
  {
    var mid := l.Spent(spender, from, amount).value;
    TransferEffect(mid, from, to, amount, l');
  }

  lemma MintEffect(l: Ledger, caller: Address, to: Address, amount: nat, l': Ledger)
    requires l.Mint(caller, to, amount) == Returned(l')
    ensures caller == l.minter && l' == l.(balances := l'.balances, supply := l.supply + amount)
    ensures forall a :: l'.BalanceOf(a) == l.BalanceOf(a) + (if a == to then amount else 0)
    ensures l.Balanced() ==> l'.Balanced()
  {
    SumWrite(l.balances, to, l.BalanceOf(to) + amount);
  }

  lemma BurnEffect(l: Ledger, caller: Address, from: Address, amount: nat, l': Ledger)
    requires l.Burn(caller, from, amount) == Returned(l')
    ensures caller == l.burner && l' == l.(balances := l'.balances, supply := l.supply - amount)
    ensures forall a :: l'.BalanceOf(a) == l.BalanceOf(a) - (if a == from then amount else 0)
    ensures l.Balanced() ==> l'.Balanced()
  {
    SumWrite(l.balances, from, l.BalanceOf(from) - amount);
  }

  /** When the calls go through: each exactly when the tokens, the right and the addresses
      are there. */
  lemma CallsReturnIff(l: Ledger, caller: Address, from: Address, to: Address, amount: nat)
    ensures l.Transfer(from, to, amount).Returned? <==> from != 0 && to != 0 && amount <= l.BalanceOf(from)
    ensures l.TransferFrom(caller, from, to, amount).Returned? <==>
            && from != 0 && to != 0 && amount <= l.BalanceOf(from)
            && (l.Allowance(from, caller) == MAX_UINT256 || (amount <= l.Allowance(from, caller) && caller != 0))
    ensures l.Mint(caller, to, amount).Returned? <==>
            caller == l.minter && to != 0 && l.supply + amount <= MAX_UINT256
    ensures l.Balanced() ==>
              (l.Burn(caller, from, amount).Returned? <==>
               caller == l.burner && from != 0 && amount <= l.BalanceOf(from))
  {
    SumBoundsEntry(l.balances, from);
  }

  /** An approval sets its allowance, also to less than before, and nothing else. */
  lemma ApproveEffect(l: Ledger, holder: Address, spender: Address, amount: nat)
    ensures var r := l.Approve(holder, spender, amount);
            && (r.Returned? <==> holder != 0 && spender != 0)
            && (r.Returned? ==>
                  && r.value == l.(allowances := r.value.allowances)
                  && forall h: Address, s: Address ::
                       r.value.Allowance(h, s) == if (h, s) == (holder, spender) then amount else l.Allowance(h, s))
  {
  }

  // ----- What a spender gets out of an approval -----

  datatype TokenCall =
    | Transfer(to: Address, amount: nat)
    | Approve(spender: Address, amount: nat)
    | TransferFrom(from: Address, to: Address, amount: nat)
    | Mint(to: Address, amount: nat)
    | Burn(from: Address, amount: nat)

  datatype TokenStep = TokenStep(sender: Address, call: TokenCall)

  function CallToken(l: Ledger, sender: Address, call: TokenCall): Outcome<Ledger, TokenError> {
    match call
    case Transfer(to, amount) => l.Transfer(sender, to, amount)
    case Approve(spender, amount) => l.Approve(sender, spender, amount)
    case TransferFrom(from, to, amount) => l.TransferFrom(sender, from, to, amount)
    case Mint(to, amount) => l.Mint(sender, to, amount)
    case Burn(from, amount) => l.Burn(sender, from, amount)
  }

  /** The caller acts for itself: it transfers and approves its own tokens, pulls as the
      spender, and mints or burns in its own role. */
  lemma CallerActs(l: Ledger, caller: Address, a: Address, b: Address, x: nat)
    ensures CallToken(l, caller, Transfer(a, x)) == l.Transfer(caller, a, x)
    ensures CallToken(l, caller, Approve(a, x)) == l.Approve(caller, a, x)
    ensures CallToken(l, caller, TransferFrom(a, b, x)) == l.TransferFrom(caller, a, b, x)
    ensures CallToken(l, caller, Mint(a, x)) == l.Mint(caller, a, x)
    ensures CallToken(l, caller, Burn(a, x)) == l.Burn(caller, a, x)
  {
  }

  function NextLedger(l: Ledger, step: TokenStep): Ledger {
    match CallToken(l, step.sender, step.call)
    case Reverted(_) => l
    case Returned(l') => l'
  }

  function RunLedger(l: Ledger, steps: seq<TokenStep>): Ledger {
    if steps == [] then l else NextLedger(RunLedger(l, steps[..|steps| - 1]), steps[|steps| - 1])
  }

  /** What a spender's successful pulls from a holder add up to. */
  function PulledIn(l: Ledger, steps: seq<TokenStep>, holder: Address, spender: Address): nat {
    if steps == [] then 0 else
    var before, last := steps[..|steps| - 1], steps[|steps| - 1];
    PulledIn(l, before, holder, spender) +
    if last.sender == spender && last.call.TransferFrom? && last.call.from == holder
       && CallToken(RunLedger(l, before), last.sender, last.call).Returned?
    then last.call.amount else 0
  }

  /** Between two approvals by the holder, whatever anyone calls, a limited allowance and what
      was pulled under it add up to what was approved; so no more is ever pulled. */
  lemma {:induction false} AllowanceConserved(l: Ledger, steps: seq<TokenStep>, holder: Address, spender: Address)
    requires l.Allowance(holder, spender) < MAX_UINT256
    requires forall step :: step in steps ==>
                              !(step.sender == holder && step.call.Approve? && step.call.spender == spender)
    ensures RunLedger(l, steps).Allowance(holder, spender) + PulledIn(l, steps, holder, spender)
            == l.Allowance(holder, spender)
  {
    if steps == [] {
    } else {
      var before, last := steps[..|steps| - 1], steps[|steps| - 1];
      assert last in steps;
      AllowanceConserved(l, before, holder, spender);
      var mid := RunLedger(l, before);
      if last.call.TransferFrom? && CallToken(mid, last.sender, last.call).Returned? {
        TransferFromEffect(mid, last.sender, last.call.from, last.call.to, last.call.amount, NextLedger(mid, last));
      }
    }
  }

  /** The deployed token: storage that the calls update in place. */
  class Token {
    var owner: Address
    var minter: Address
    var burner: Address
    var balances: map<Address, nat>
    var supply: nat
    var allowances: map<(Address, Address), nat>

    ghost function State(): Ledger
      reads this
    {
      Ledger(owner, minter, burner, balances, supply, allowances)
    }

    constructor (initialOwner: Address)
      ensures State() == Genesis(initialOwner) && State().Balanced()
      ensures owner == initialOwner && minter == ZERO_ADDRESS && burner == ZERO_ADDRESS && supply == 0
    {
      owner := initialOwner;
      minter, burner := ZERO_ADDRESS, ZERO_ADDRESS;
      balances, supply, allowances := map[], 0, map[];
    }

    method SetMinter(env: Env, newMinter: Address) returns (r: Outcome<(), TokenError>)
      modifies this`minter
      ensures r.Returned? <==> env.sender == owner && newMinter != ZERO_ADDRESS
      ensures minter == if r.Returned? then newMinter else old(minter)
    {
      if env.sender != owner { return Reverted(NotOwner); }
      if newMinter == ZERO_ADDRESS { return Reverted(ZeroAddress); }
      minter := newMinter;
      return Returned(());
    }

    method SetBurner(env: Env, newBurner: Address) returns (r: Outcome<(), TokenError>)
      modifies this`burner
      ensures r.Returned? <==> env.sender == owner && newBurner != ZERO_ADDRESS
      ensures burner == if r.Returned? then newBurner else old(burner)
    {
      if env.sender != owner { return Reverted(NotOwner); }
      if newBurner == ZERO_ADDRESS { return Reverted(ZeroAddress); }
      burner := newBurner;
      return Returned(());
    }

    method Transfer(sender: Address, to: Address, amount: nat) returns (r: Outcome<(), TokenError>)
      modifies this`balances
      ensures Agrees(r, old(State()).Transfer(sender, to, amount), old(State()), State())
    {
      if sender == ZERO_ADDRESS || to == ZERO_ADDRESS { return Reverted(ZeroAddress); }
      if At(balances, sender, 0) < amount { return Reverted(InsufficientBalance); }
      balances := balances[sender := At(balances, sender, 0) - amount];
      balances := balances[to := At(balances, to, 0) + amount];
      return Returned(());
    }

    method Approve(sender: Address, spender: Address, amount: nat) returns (r: Outcome<(), TokenError>)
      modifies this`allowances
      ensures Agrees(r, old(State()).Approve(sender, spender, amount), old(State()), State())
    {
      if sender == ZERO_ADDRESS || spender == ZERO_ADDRESS { return Reverted(ZeroAddress); }
      allowances := allowances[(sender, spender) := amount];
      return Returned(());
    }

    method TransferFrom(spender: Address, from: Address, to: Address, amount: nat)
      returns (r: Outcome<(), TokenError>)
      modifies this`balances, this`allowances
      ensures Agrees(r, old(State()).TransferFrom(spender, from, to, amount), old(State()), State())
    {
      var allowed := At(allowances, (from, spender), 0);
      var journal := allowances;
      if allowed != MAX_UINT256 {
        if allowed < amount { return Reverted(InsufficientAllowance); }
        r := Approve(from, spender, allowed - amount);
        if r.Reverted? { return; }
      }
      r := Transfer(from, to, amount);
      if r.Reverted? {
        allowances := journal;
      }
    }

    method Mint(caller: Address, to: Address, amount: nat) returns (r: Outcome<(), TokenError>)
      modifies this`balances, this`supply
      ensures Agrees(r, old(State()).Mint(caller, to, amount), old(State()), State())
    {
      if caller != minter { return Reverted(NotMinter); }
      if to == ZERO_ADDRESS { return Reverted(ZeroAddress); }
      if supply + amount > MAX_UINT256 { return Reverted(SupplyOverflow); }
      supply := supply + amount;
      balances := balances[to := At(balances, to, 0) + amount];
      return Returned(());
    }

    method Burn(caller: Address, from: Address, amount: nat) returns (r: Outcome<(), TokenError>)
      modifies this`balances, this`supply
      ensures Agrees(r, old(State()).Burn(caller, from, amount), old(State()), State())
    {
      if caller != burner { return Reverted(NotBurner); }
      if from == ZERO_ADDRESS { return Reverted(ZeroAddress); }
      if At(balances, from, 0) < amount || supply < amount { return Reverted(InsufficientBalance); }
      balances := balances[from := At(balances, from, 0) - amount];
      supply := supply - amount;
      return Returned(());
    }

    /** Rolls the balances back to a snapshot, as a reverting transaction does. */
    method Restore(snapshot: map<Address, nat>, allowed: map<(Address, Address), nat>)
      modifies this`balances, this`allowances
      ensures State() == old(State()).(balances := snapshot, allowances := allowed)
    {
      balances, allowances := snapshot, allowed;
    }
  }
}
