/**
  The pure computations of src/SepaSwiftSimulator.tsx, lifted out of its React hooks:
  the SEPA fee, the destination-name rewrite, the residency profile pick, the offered
  and default settlement options, the speed handed to the SWIFT engine, and what the
  cost overview shows.
 */
module Simulator {
  import opened Wrappers
  import opened Money
  import opened SwiftFeeCalculator
  import opened BankLoader

  // ---------------------------------------------------------------------------
  // SEPA fee

  /** The SEPA payment channel: online banking ("e-bankarstvo") or the counter ("šalter"). */
  datatype Channel = EBanking | Counter

  /** `SEPA_STANDARD_FEE_CAP`. */
  const StandardFeeCap: real := 20000.0

  /**
    `calcSepaFee`: the first qualifying transfer of the day up to 200 pays 0.02 on either
    channel; otherwise online banking pays 1.99 up to the cap and 25 above it, and the
    counter 3.99 and 50.
   */
  function CalcSepaFee(amount: real, channel: Channel, firstOfDay: bool): (fee: real)
    ensures firstOfDay && amount <= 200.0 ==> fee == 0.02
    ensures !(firstOfDay && amount <= 200.0) && channel == EBanking ==>
      fee == (if amount <= StandardFeeCap then 1.99 else 25.0)
    ensures !(firstOfDay && amount <= 200.0) && channel == Counter ==>
      fee == (if amount <= StandardFeeCap then 3.99 else 50.0)
  {
    if firstOfDay && amount <= 200.0 then 0.02
    else if channel == EBanking then (if amount <= StandardFeeCap then 1.99 else 25.0)
    else (if amount <= StandardFeeCap then 3.99 else 50.0)
  }

  /** A larger amount never costs less, on the same channel and day status. */
  lemma SepaFeeMonotone(a: real, b: real, channel: Channel, firstOfDay: bool)
    requires a <= b
    ensures CalcSepaFee(a, channel, firstOfDay) <= CalcSepaFee(b, channel, firstOfDay)
  {
  }

  /** The counter never costs less than online banking. */
  lemma CounterNotCheaper(amount: real, firstOfDay: bool)
    ensures CalcSepaFee(amount, EBanking, firstOfDay) <= CalcSepaFee(amount, Counter, firstOfDay)
  {
  }

  /** The promotion stops at 200: an amount of 250 on the first transfer of the day pays 1.99 online. */
  lemma PromotionEndsAt200()
    ensures CalcSepaFee(250.0, EBanking, true) == 1.99
    ensures CalcSepaFee(200.0, EBanking, true) == 0.02
  {
  }

  /** The SEPA total shown: the amount plus the SEPA fee, between 0.02 and 50 above the amount. */
  function SepaTotal(amount: real, channel: Channel, firstOfDay: bool): (total: real)
    ensures total - amount == CalcSepaFee(amount, channel, firstOfDay)
    ensures amount + 0.02 <= total <= amount + 50.0
  {
    amount + CalcSepaFee(amount, channel, firstOfDay)
  }

  // ---------------------------------------------------------------------------
  // Destination name

  /** The characters `String.prototype.trim` removes: ECMAScript white space and line terminators. */
  predicate IsJsSpace(c: char) {
    var n := c as int;
    n == 0x09 || n == 0x0A || n == 0x0B || n == 0x0C || n == 0x0D || n == 0x20 ||
    n == 0xA0 || n == 0x1680 || (0x2000 <= n <= 0x200A) || n == 0x2028 || n == 0x2029 ||
    n == 0x202F || n == 0x205F || n == 0x3000 || n == 0xFEFF
  }

  /** Leading white space removed. */
  function TrimStart(s: string): (r: string)
    ensures |r| <= |s| && r == s[|s| - |r|..]
    ensures r == [] || !IsJsSpace(r[0])
    ensures forall i :: 0 <= i < |s| - |r| ==> IsJsSpace(s[i])
  {
    if s != [] && IsJsSpace(s[0]) then TrimStart(s[1..]) else s
  }

  /** Trailing white space removed. */
  function TrimEnd(s: string): (r: string)
    ensures |r| <= |s| && r == s[..|r|]
    ensures r == [] || !IsJsSpace(r[|r| - 1])
    ensures forall i :: |r| <= i < |s| ==> IsJsSpace(s[i])
  {
    if s != [] && IsJsSpace(s[|s| - 1]) then TrimEnd(s[..|s| - 1]) else s
  }

  /** `s.trim()`: neither end of the result is white space. */
  function Trim(s: string): (r: string)
    ensures |r| <= |s|
    ensures r == [] || (!IsJsSpace(r[0]) && !IsJsSpace(r[|r| - 1]))
  {
    TrimEnd(TrimStart(s))
  }

  /** A string with no white space at either end is its own trim. */
  lemma TrimOfTrimmed(s: string)
    requires s == [] || (!IsJsSpace(s[0]) && !IsJsSpace(s[|s| - 1]))
    ensures Trim(s) == s
  {
  }

  /**
    `toAccCountry`: the trimmed name, with its last letter replaced by 'u' when it has at
    least two characters (the accusative of a feminine country name).
   */
  function ToAccCountry(country: string): (r: string)
    ensures var t := Trim(country);
      |t| < 2 ==> r == t
    ensures var t := Trim(country);
      |t| >= 2 ==> |r| == |t| && r[..|t| - 1] == t[..|t| - 1] && r[|t| - 1] == 'u'
  {
    var s := Trim(country);
    if |s| < 2 then s else s[..|s| - 1] + "u"
  }

  /** Rewriting an already rewritten name changes nothing. */
  lemma {:induction false} ToAccCountryIdempotent(country: string)
    ensures ToAccCountry(ToAccCountry(country)) == ToAccCountry(country)
  {
    var r := ToAccCountry(country);
    TrimOfTrimmed(r);
    if |r| >= 2 {
      assert r[..|r| - 1] + "u" == r;
    }
  }

  // ---------------------------------------------------------------------------
  // Profile selection

  /**
    The effective transfer-out table: the residency sub-profile's table when that
    sub-profile has one, otherwise the bank's top-level table.
   */
  function EffectiveTransferOut(bank: BankProfile, isResident: bool): (t: Option<TransferOut>)
    ensures var sub := if isResident then bank.resident else bank.nonResident;
      t.None? <==> bank.transferOut.None? && (sub.None? || sub.value.transferOut.None?)
    ensures var sub := if isResident then bank.resident else bank.nonResident;
      t != bank.transferOut ==> sub.Some? && t == sub.value.transferOut
    ensures var sub := if isResident then bank.resident else bank.nonResident;
      sub.Some? && sub.value.transferOut.Some? ==> t == sub.value.transferOut
  {
    var sub := if isResident then bank.resident else bank.nonResident;
    if sub.Some? && sub.value.transferOut.Some? then sub.value.transferOut else bank.transferOut
  }

  /** Only the chosen residency's sub-profile is read: the other one can be anything. */
  lemma OtherResidencyIgnored(bank: BankProfile, other: Option<SubProfile>)
    ensures EffectiveTransferOut(bank.(nonResident := other), true) == EffectiveTransferOut(bank, true)
    ensures EffectiveTransferOut(bank.(resident := other), false) == EffectiveTransferOut(bank, false)
  {
  }

  /** A bank whose sub-profiles hold no table is priced from its top-level table, whatever the residency. */
  lemma TopLevelWithoutSubTables(bank: BankProfile, isResident: bool)
    requires bank.resident.None? || bank.resident.value.transferOut.None?
    requires bank.nonResident.None? || bank.nonResident.value.transferOut.None?
    ensures EffectiveTransferOut(bank, isResident) == bank.transferOut
  {
  }

  /**
    The profile the hooks hand to the engine: the first bank of the list with the chosen
    name, reduced to its name and effective table; None when no bank has that name.
   */
  function SelectedProfile(banks: seq<BankProfile>, bankName: string, isResident: bool): (p: Option<BankProfile>)
    ensures p.None? <==> forall j :: 0 <= j < |banks| ==> banks[j].name != bankName
    ensures p.Some? ==> p.value.name == bankName && p.value.resident.None? && p.value.nonResident.None?
    ensures p.Some? ==>
      exists i :: 0 <= i < |banks| && banks[i].name == bankName &&
                  (forall j :: 0 <= j < i ==> banks[j].name != bankName) &&
                  p.value.transferOut == EffectiveTransferOut(banks[i], isResident)
  {
    match FirstNamed(banks, bankName)
    case None => None
    case Some(i) => Some(BankProfile(banks[i].name, EffectiveTransferOut(banks[i], isResident), None, None))
  }

  // ---------------------------------------------------------------------------
  // Settlement options

  /** The named settlement speeds, in their canonical order. */
  const Canonical: seq<string> := ["T+0", "T+1", "T+2"]

  /** All three named speeds are keys of the `special` record. */
  predicate HasAllCanonical(keys: seq<string>) {
    "T+0" in keys && "T+1" in keys && "T+2" in keys
  }

  /** `Object.keys(profile.transferOut?.special || {})`. */
  function SpecialKeys(t: Option<TransferOut>): (keys: seq<string>)
    ensures t.None? || t.value.special.None? ==> keys == []
    ensures t.Some? && t.value.special.Some? ==>
      |keys| == |t.value.special.value| &&
      forall i :: 0 <= i < |keys| ==> keys[i] == t.value.special.value[i].speed
  {
    if t.Some? && t.value.special.Some? then
      var sp := t.value.special.value;
      seq(|sp|, i requires 0 <= i < |sp| => sp[i].speed)
    else []
  }

  /** `xs.filter(k => keys.includes(k))`. */
  function Keep(xs: seq<string>, keys: seq<string>): (r: seq<string>)
    ensures |r| <= |xs|
    ensures forall k :: k in r <==> k in xs && k in keys
    ensures |r| == |xs| <==> forall i :: 0 <= i < |xs| ==> xs[i] in keys
    ensures (forall i :: 0 <= i < |xs| ==> xs[i] in keys) ==> r == xs
  {
    if xs == [] then []
    else if xs[0] in keys then [xs[0]] + Keep(xs[1..], keys)
    else Keep(xs[1..], keys)
  }

  /** `xs.filter(k => !ban.includes(k))`. */
  function Drop(xs: seq<string>, ban: seq<string>): (r: seq<string>)
    ensures |r| <= |xs|
    ensures forall k :: k in r <==> k in xs && k !in ban
    ensures (forall i :: 0 <= i < |xs| ==> xs[i] !in ban) ==> r == xs
  {
    if xs == [] then []
    else if xs[0] in ban then Drop(xs[1..], ban)
    else [xs[0]] + Drop(xs[1..], ban)
  }

  /** Filtering keeps order: filtering a concatenation is concatenating the filtered parts. */
  lemma {:induction false} KeepAppend(xs: seq<string>, ys: seq<string>, keys: seq<string>)
    ensures Keep(xs + ys, keys) == Keep(xs, keys) + Keep(ys, keys)
  {
    if xs != [] {
      assert (xs + ys)[1..] == xs[1..] + ys;
      KeepAppend(xs[1..], ys, keys);
    } else {
      assert xs + ys == ys;
    }
  }

  /** Filtering keeps order: dropping from a concatenation is concatenating what each part keeps. */
  lemma {:induction false} DropAppend(xs: seq<string>, ys: seq<string>, ban: seq<string>)
    ensures Drop(xs + ys, ban) == Drop(xs, ban) + Drop(ys, ban)
  {
    if xs != [] {
      assert (xs + ys)[1..] == xs[1..] + ys;
      DropAppend(xs[1..], ys, ban);
    } else {
      assert xs + ys == ys;
    }
  }

  /** The named speeds present are listed in canonical order, each once. */
  lemma CanonicalOrder(keys: seq<string>)
    ensures Keep(Canonical, keys) ==
      (if "T+0" in keys then ["T+0"] else []) +
      (if "T+1" in keys then ["T+1"] else []) +
      (if "T+2" in keys then ["T+2"] else [])
  {
    assert Canonical == ["T+0"] + ["T+1"] + ["T+2"];
    KeepAppend(["T+0"] + ["T+1"], ["T+2"], keys);
    KeepAppend(["T+0"], ["T+1"], keys);
  }

  /**
    `shaSettlementOptions`: nothing without keys; the three named speeds followed by the
    custom keys when all three are present; otherwise "Standard", the named speeds present
    in canonical order, then the custom keys in key order.
   */
  function SettlementOptions(keys: seq<string>): (opts: seq<string>)
    ensures opts == [] <==> keys == []
    ensures HasAllCanonical(keys) ==> opts == Canonical + Drop(keys, Canonical)
    ensures !HasAllCanonical(keys) && keys != [] ==>
      opts == ["Standard"] + Keep(Canonical, keys) + Drop(keys, Canonical)
    ensures forall k :: k in keys ==> k in opts
    ensures forall k :: k in opts ==> k in keys || k == "Standard"
  {
    var ordered := Keep(Canonical, keys);
    var custom := Drop(keys, Canonical);
    assert keys != [] ==> keys[0] in ordered || keys[0] in custom;
    assert ordered != [] ==> ordered[0] in keys;
    assert custom != [] ==> custom[0] in keys;
    if ordered == [] && custom == [] then []
    else if |ordered| == 3 then ordered + custom
    else ["Standard"] + ordered + custom
  }

  /** The default selection: "T+2" when all three named speeds are present, else "Standard". */
  function DefaultSettlement(keys: seq<string>): (d: string)
    ensures d == "T+2" <==> HasAllCanonical(keys)
    ensures d != "T+2" ==> d == "Standard"
  {
    if HasAllCanonical(keys) then "T+2" else "Standard"
  }

  /** Whenever any option is offered, the default selection is one of them. */
  lemma DefaultIsOffered(keys: seq<string>)
    requires keys != []
    ensures DefaultSettlement(keys) in SettlementOptions(keys)
  {
  }

  /**
    The speed each memo hands to the engine: SHA passes the selection unless the table has
    no `special` record or "Standard" is selected; OUR and BEN always pass none.
   */
  function SpeedFor(option: string, t: Option<TransferOut>, selection: string): (s: Option<string>)
    ensures option != "SHA" ==> s.None?
    ensures option == "SHA" ==> (s.None? <==> t.None? || t.value.special.None? || selection == "Standard")
    ensures s.Some? ==> s.value == selection
  {
    if option == "SHA" && t.Some? && t.value.special.Some? && selection != "Standard" then Some(selection)
    else None
  }

  /** Under the default selection the SHA speed is "T+2" when all named speeds exist, else none. */
  lemma DefaultSpeed(t: Option<TransferOut>)
    ensures var s := SpeedFor("SHA", t, DefaultSettlement(SpecialKeys(t)));
      (s == Some("T+2") <==> HasAllCanonical(SpecialKeys(t))) && (s.None? <==> !HasAllCanonical(SpecialKeys(t)))
  {
  }

  // ---------------------------------------------------------------------------
  // Results shown

  /** One of the three SWIFT memos: no bank selected gives `null`, otherwise the engine's answer. */
  function SwiftQuote(banks: seq<BankProfile>, bankName: string, isResident: bool, amount: real,
                      option: string, selection: string): (q: Outcome)
    ensures (forall j :: 0 <= j < |banks| ==> banks[j].name != bankName) ==> q == NoPricing
    ensures option != "SHA" && SelectedProfile(banks, bankName, isResident).Some? ==>
      q == SwiftFee(amount, SelectedProfile(banks, bankName, isResident).value, option, None)
    ensures option == "SHA" && SelectedProfile(banks, bankName, isResident).Some? ==>
      var p := SelectedProfile(banks, bankName, isResident).value;
      q == SwiftFee(amount, p, "SHA", SpeedFor("SHA", p.transferOut, selection))
  {
    match SelectedProfile(banks, bankName, isResident)
    case None => NoPricing
    case Some(p) => SwiftFee(amount, p, option, SpeedFor(option, p.transferOut, selection))
  }

  /** The SHA memo never throws: the override is for OUR only. */
  lemma ShaQuoteNeverThrows(banks: seq<BankProfile>, bankName: string, isResident: bool, amount: real, selection: string)
    ensures !SwiftQuote(banks, bankName, isResident, amount, "SHA", selection).Thrown?
  {
  }

  /** `swiftShaResult || { senderFee: 0, senderPaysTotal: amount }`. */
  function Shown(amount: real, q: Outcome): (r: FeeResult)
    requires !q.Thrown?
    ensures q.Priced? ==> r == q.result
    ensures q.NoPricing? ==> r == FeeResult(0.0, amount)
  {
    if q.Priced? then q.result else FeeResult(0.0, amount)
  }

  /**
    For an amount in whole cents the SHA cost overview is consistent: the total shown is
    exactly the amount plus the fee shown, whether or not a price was found.
   */
  lemma {:induction false} ShownShaTotal(banks: seq<BankProfile>, bankName: string, isResident: bool, amount: real, selection: string)
    requires IsCents(amount)
    ensures !SwiftQuote(banks, bankName, isResident, amount, "SHA", selection).Thrown?
    ensures var r := Shown(amount, SwiftQuote(banks, bankName, isResident, amount, "SHA", selection));
      r.senderPaysTotal == amount + r.senderFee
  {
    ShaQuoteNeverThrows(banks, bankName, isResident, amount, selection);
    match SelectedProfile(banks, bankName, isResident)
    case None =>
    case Some(p) =>
      var speed := SpeedFor("SHA", p.transferOut, selection);
      if SwiftFee(amount, p, "SHA", speed).Priced? {
        TotalIsAmountPlusFee(amount, p, "SHA", speed);
      }
  }
}
