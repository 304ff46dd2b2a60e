/**
  The SWIFT fee engine of src/swiftFeeCalculator.ts: rule and profile types, the tier
  searches, `calculate`, `specialCalculation` (the override for one named bank) and
  `calcSwiftFeeDynamic`.

  The step-by-step code (`calculate`, `specialCalculation`, `calcSwiftFeeDynamic`) is
  written as methods with the same local updates; each is proved against a
  specification function (CalculatedFee, SpecialOutcome, SwiftFee) that the lemmas
  below speak about.
 */
module SwiftFeeCalculator {
  import opened Wrappers
  import opened Money

  /** A property of a JSON record: missing, `null`, or a value of the declared type. */
  datatype Field<+T> = Absent | Null | Present(value: T)
  {
    /** `field ?? d`: the default replaces both a missing and a `null` property. */
    function Or(d: T): T {
      if Present? then value else d
    }
  }

  /** `SwiftFeeRule`: one amount band of a bank's price list. */
  datatype Rule = Rule(
    minAmount: Field<real>,
    maxAmount: Field<real>,
    feeType: Field<string>,
    feeValue: Field<real>,
    minFee: Field<real>,
    maxFee: Field<real>,
    additionalFee: Field<real>,
    settlement: Field<string>)

  /** One key of the `special` record: a settlement speed and its surcharge, if numeric. */
  datatype Surcharge = Surcharge(speed: string, value: Option<real>)

  /**
    What a transfer-out record holds under an option key: a rule array, nothing
    (a missing key or `null`), or some other value such as `{ notice }`.
   */
  datatype Entry = RuleList(rules: seq<Rule>) | Nullish | NonArray

  /**
    `TransferOutOption`. The record's "special" key is held apart, in `special`, with
    its keys in `Object.keys` order; `options` holds every other key.
   */
  datatype TransferOut = TransferOut(options: map<string, Entry>, special: Option<seq<Surcharge>>)

  /** The `resident` / `non-resident` sub-profiles. */
  datatype SubProfile = SubProfile(transferOut: Option<TransferOut>)

  /** `SwiftBankProfile` (and the loader's `BankProfile`, which is the same record). */
  datatype BankProfile = BankProfile(
    name: string,
    transferOut: Option<TransferOut>,
    resident: Option<SubProfile>,
    nonResident: Option<SubProfile>)

  /** `SwiftFeeResult`. */
  datatype FeeResult = FeeResult(senderFee: real, senderPaysTotal: real)

  /**
    What the engine hands back: a price, `null` (no pricing defined), or a thrown
    TypeError (the override calls `find` on an entry that is not an array).
   */
  datatype Outcome = Priced(result: FeeResult) | NoPricing | Thrown

  /** The one bank whose OUR option is priced by `specialCalculation`. */
  const OverrideBank: string := "Universal Capital Bank AD"

  predicate IsOverride(bank: BankProfile, option: string) {
    bank.name == OverrideBank && option == "OUR"
  }

  /** `transferOut?.[key]`, classified as the engine sees it. */
  function EntryFor(t: Option<TransferOut>, key: string): Entry {
    if t.Some? && key in t.value.options then t.value.options[key] else Nullish
  }

  /** The rule array under `option`, or None when `Array.isArray` fails. */
  function RulesFor(t: Option<TransferOut>, option: string): (r: Option<seq<Rule>>)
    ensures r.Some? <==> EntryFor(t, option).RuleList?
    ensures r.Some? ==> r.value == EntryFor(t, option).rules
  {
    match EntryFor(t, option)
    case RuleList(rules) => Some(rules)
    case _ => None
  }

  /** A settlement speed is "given" when it is truthy: present and not the empty string. */
  predicate Given(speed: Option<string>) {
    speed.Some? && speed.value != ""
  }

  /** `rules.some(r => typeof r.settlement === 'string')`. */
  predicate HasSettlementInRules(rules: seq<Rule>) {
    exists i :: 0 <= i < |rules| && rules[i].settlement.Present?
  }

  /** `inRange`: a numeric bound is inclusive, any other bound is open. */
  predicate InRange(r: Rule, amount: real) {
    (r.minAmount.Present? ==> amount >= r.minAmount.value) &&
    (r.maxAmount.Present? ==> amount <= r.maxAmount.value)
  }

  /**
    The fallback band: a numeric minimum is required and inclusive; the maximum must be
    numeric (inclusive) or `null` (unbounded); a missing maximum rejects the rule.
   */
  predicate InBand(r: Rule, amount: real) {
    r.minAmount.Present? &&
    (r.maxAmount.Present? || r.maxAmount.Null?) &&
    amount >= r.minAmount.value &&
    (r.maxAmount.Present? ==> amount <= r.maxAmount.value)
  }

  /** The override's band: as InBand, but the minimum is exclusive. */
  predicate InStrictBand(r: Rule, amount: real) {
    r.minAmount.Present? &&
    (r.maxAmount.Present? || r.maxAmount.Null?) &&
    amount > r.minAmount.value &&
    (r.maxAmount.Present? ==> amount <= r.maxAmount.value)
  }

  /** The three `find` predicates the engine uses. */
  datatype Search = BySettlement(speed: string) | ByBand | ByStrictBand

  predicate Matches(s: Search, r: Rule, amount: real) {
    match s
    case BySettlement(speed) => r.settlement == Present(speed) && InRange(r, amount)
    case ByBand => InBand(r, amount)
    case ByStrictBand => InStrictBand(r, amount)
  }

  /** `rules.find(...)`: the position of the first rule the search accepts. */
  function FirstMatch(rules: seq<Rule>, s: Search, amount: real): (k: Option<nat>)
    ensures k.Some? ==> k.value < |rules| && Matches(s, rules[k.value], amount)
    ensures k.Some? ==> forall j :: 0 <= j < k.value ==> !Matches(s, rules[j], amount)
    ensures k.None? ==> forall j :: 0 <= j < |rules| ==> !Matches(s, rules[j], amount)
  {
    if rules == [] then None
    else if Matches(s, rules[0], amount) then Some(0)
    else
      match FirstMatch(rules[1..], s, amount)
      case None => None
      case Some(i) => Some(i + 1)
  }

  /**
    Tier selection of `calcSwiftFeeDynamic`: when the rules carry settlement tags and a
    speed is given, the first in-range rule with that tag; failing that, the first rule
    in the fallback band; None when neither exists.
   */
  function SelectTier(rules: seq<Rule>, amount: real, speed: Option<string>): (k: Option<nat>)
    ensures k.Some? ==> k.value < |rules|
    ensures var tiered := HasSettlementInRules(rules) && Given(speed);
      k.Some? ==>
        (tiered && Matches(BySettlement(speed.value), rules[k.value], amount) &&
         forall j :: 0 <= j < k.value ==> !Matches(BySettlement(speed.value), rules[j], amount))
        ||
        ((tiered ==> forall j :: 0 <= j < |rules| ==> !Matches(BySettlement(speed.value), rules[j], amount)) &&
         InBand(rules[k.value], amount) &&
         forall j :: 0 <= j < k.value ==> !InBand(rules[j], amount))
    ensures var tiered := HasSettlementInRules(rules) && Given(speed);
      k.None? <==>
        (forall j :: 0 <= j < |rules| ==> !InBand(rules[j], amount)) &&
        (tiered ==> forall j :: 0 <= j < |rules| ==> !Matches(BySettlement(speed.value), rules[j], amount))
    ensures k.Some? && rules[k.value].maxAmount.Absent? ==>
      HasSettlementInRules(rules) && Given(speed) && rules[k.value].settlement == Present(speed.value)
  {
    var first :=
      if HasSettlementInRules(rules) && Given(speed)
      then FirstMatch(rules, BySettlement(speed.value), amount)
      else None;
    if first.Some? then first else FirstMatch(rules, ByBand, amount)
  }

  function Max(a: real, b: real): real {
    if a >= b then a else b
  }

  /**
    Specification of `calculate`: the percentage, fixed or combined formula, raised to
    `minFee`.
   */
  function CalculatedFee(amount: real, fee: real, feeType: string, minFee: real, additionalFee: real): (r: real)
    ensures r >= minFee
  {
    var raw :=
      if feeType == "percentage" then amount * fee
      else if feeType == "fixed" then fee
      else if additionalFee != 0.0 then amount * fee + additionalFee
      else 0.0;
    Max(raw, minFee)
  }

  /** `calculate`, step by step as the source writes it. */
  method Calculate(amount: real, fee: real, feeType: string, minFee: real, additionalFee: real) returns (sndrFee: real)
    ensures sndrFee >= minFee
    ensures feeType == "percentage" ==> sndrFee == Max(amount * fee, minFee)
    ensures feeType == "fixed" ==> sndrFee == Max(fee, minFee)
    ensures feeType != "percentage" && feeType != "fixed" ==>
      sndrFee == Max(if additionalFee != 0.0 then amount * fee + additionalFee else 0.0, minFee)
    ensures sndrFee == CalculatedFee(amount, fee, feeType, minFee, additionalFee)
  {
    sndrFee := 0.0;
    if feeType == "percentage" {
      sndrFee := amount * fee;
    } else if feeType == "fixed" {
      sndrFee := fee;
    } else {
      if additionalFee != 0.0 {
        sndrFee := amount * fee + additionalFee;
      }
    }
    if sndrFee < minFee {
      sndrFee := minFee;
    }
  }

  /** The fee `specialCalculation` computes from one rule, with its defaults for missing fields. */
  function RuleFee(r: Rule, amount: real): real {
    CalculatedFee(amount, r.feeValue.Or(0.0), r.feeType.Or("percentage"), r.minFee.Or(0.0), r.additionalFee.Or(0.0))
  }

  /** `list?.find(...)` with the override's band test; None also for a missing list. */
  function StrictFind(e: Entry, amount: real): (r: Option<Rule>)
    requires !e.NonArray?
    ensures r.Some? ==> e.RuleList? && r.value in e.rules && InStrictBand(r.value, amount)
    ensures r.Some? ==>
      exists k :: 0 <= k < |e.rules| && e.rules[k] == r.value &&
                  forall j :: 0 <= j < k ==> !InStrictBand(e.rules[j], amount)
    ensures r.None? <==> e.Nullish? || forall j :: 0 <= j < |e.rules| ==> !InStrictBand(e.rules[j], amount)
  {
    match e
    case Nullish => None
    case RuleList(rules) =>
      match FirstMatch(rules, ByStrictBand, amount)
      case None => None
      case Some(k) => Some(rules[k])
  }

  /**
    Specification of `specialCalculation`: the sum of the SHA-tier and the OUR-tier fee
    when both tiers resolve, otherwise a zero fee; never rounded.
   */
  function SpecialOutcome(amount: real, bank: BankProfile): Outcome {
    var sha := EntryFor(bank.transferOut, "SHA");
    var our := EntryFor(bank.transferOut, "OUR");
    if sha.NonArray? || our.NonArray? then Thrown
    else
      var s := StrictFind(sha, amount);
      var o := StrictFind(our, amount);
      var fee := if s.Some? && o.Some? then RuleFee(s.value, amount) + RuleFee(o.value, amount) else 0.0;
      Priced(FeeResult(fee, amount + fee))
  }

  /** `specialCalculation`, with the `shaFee` / `ourFee` / `senderFee` locals of the source. */
  method SpecialCalculation(amount: real, bank: BankProfile) returns (r: Outcome)
    ensures r != NoPricing
    ensures r.Thrown? <==> EntryFor(bank.transferOut, "SHA").NonArray? || EntryFor(bank.transferOut, "OUR").NonArray?
    ensures r.Priced? ==> r.result.senderPaysTotal == amount + r.result.senderFee
    ensures (r.Priced? &&
      (StrictFind(EntryFor(bank.transferOut, "SHA"), amount).None? ||
       StrictFind(EntryFor(bank.transferOut, "OUR"), amount).None?)) ==>
      r.result == FeeResult(0.0, amount)
    ensures r == SpecialOutcome(amount, bank)
  {
    var sha := EntryFor(bank.transferOut, "SHA");
    var our := EntryFor(bank.transferOut, "OUR");
    if sha.NonArray? || our.NonArray? {
      return Thrown;
    }
    var shaRule := StrictFind(sha, amount);
    var ourRule := StrictFind(our, amount);
    var shaFee, ourFee, senderFee := 0.0, 0.0, 0.0;
    if shaRule.Some? && ourRule.Some? {
      var s, o := shaRule.value, ourRule.value;
      shaFee := Calculate(amount, s.feeValue.Or(0.0), s.feeType.Or("percentage"), s.minFee.Or(0.0), s.additionalFee.Or(0.0));
      ourFee := Calculate(amount, o.feeValue.Or(0.0), o.feeType.Or("percentage"), o.minFee.Or(0.0), o.additionalFee.Or(0.0));
      senderFee := shaFee + ourFee;
    }
    var senderPaysTotal := amount + senderFee;
    r := Priced(FeeResult(senderFee, senderPaysTotal));
  }

  /**
    The base fee of a selected rule: zero unless `feeValue` and `additionalFee` are both
    numeric; then `feeValue + additionalFee` for 'fixed' and
    `amount * feeValue + additionalFee` for every other type.
   */
  function BaseFee(r: Rule, amount: real): (fee: real)
    ensures !(r.feeValue.Present? && r.additionalFee.Present?) ==> fee == 0.0
    ensures r.feeValue.Present? && r.additionalFee.Present? ==>
      fee - r.additionalFee.value == (if r.feeType == Present("fixed") then r.feeValue.value else amount * r.feeValue.value)
  {
    if r.feeValue.Present? && r.additionalFee.Present? then
      if r.feeType == Present("fixed") then r.feeValue.value + r.additionalFee.value
      else amount * r.feeValue.value + r.additionalFee.value
    else 0.0
  }

  /**
    The clamp, applied only when `feeValue`, `additionalFee`, `minFee` and `maxFee`
    are all numeric: a positive `maxFee` caps first, else `minFee` is a floor.
   */
  function Clamp(r: Rule, fee: real): (c: real)
    ensures !(r.feeValue.Present? && r.additionalFee.Present? && r.minFee.Present? && r.maxFee.Present?) ==> c == fee
    ensures r.feeValue.Present? && r.additionalFee.Present? && r.minFee.Present? && r.maxFee.Present? ==>
      if r.maxFee.value > 0.0 && fee > r.maxFee.value then c == r.maxFee.value
      else if fee < r.minFee.value then c == r.minFee.value
      else c == fee
  {
    if r.feeValue.Present? && r.additionalFee.Present? && r.minFee.Present? && r.maxFee.Present? then
      if r.maxFee.value > 0.0 && fee > r.maxFee.value then r.maxFee.value
      else if fee < r.minFee.value then r.minFee.value
      else fee
    else fee
  }

  /** `specials[speed]` when the key exists and holds a number. */
  function SpecialValue(special: seq<Surcharge>, speed: string): (v: Option<real>)
    ensures v.Some? ==> exists i :: 0 <= i < |special| && special[i].speed == speed && special[i].value == v
    ensures (forall i :: 0 <= i < |special| ==> special[i].speed != speed) ==> v.None?
    ensures forall i ::
      (0 <= i < |special| && special[i].speed == speed &&
       forall j :: 0 <= j < i ==> special[j].speed != speed) ==> v == special[i].value
  {
    if special == [] then None
    else if special[0].speed == speed then special[0].value
    else SpecialValue(special[1..], speed)
  }

  /**
    The settlement surcharge step: the surcharge exists exactly when the rules carry no
    settlement tag, a speed is given, the profile has a `special` record and it holds a
    number under that speed.
   */
  function SurchargeFor(t: Option<TransferOut>, rules: seq<Rule>, speed: Option<string>): (s: Option<real>)
    ensures s.Some? <==>
      !HasSettlementInRules(rules) && Given(speed) && t.Some? && t.value.special.Some? &&
      SpecialValue(t.value.special.value, speed.value).Some?
    ensures s.Some? ==> s == SpecialValue(t.value.special.value, speed.value)
  {
    if !HasSettlementInRules(rules) && Given(speed) && t.Some? && t.value.special.Some? then
      SpecialValue(t.value.special.value, speed.value)
    else None
  }

  /** Specification of `calcSwiftFeeDynamic`. */
  function SwiftFee(amount: real, bank: BankProfile, option: string, speed: Option<string>): Outcome {
    if IsOverride(bank, option) then SpecialOutcome(amount, bank)
    else
      match RulesFor(bank.transferOut, option)
      case None => NoPricing
      case Some(rules) =>
        match SelectTier(rules, amount, speed)
        case None => NoPricing
        case Some(k) =>
          var surcharge := SurchargeFor(bank.transferOut, rules, speed);
          var fee := Round2(Clamp(rules[k], BaseFee(rules[k], amount)) + (if surcharge.Some? then surcharge.value else 0.0));
          Priced(FeeResult(fee, Round2(amount + fee)))
  }

  /** The properties `calcSwiftFeeDynamic` promises, stated of its specification. */
  lemma SwiftFeeContract(amount: real, bank: BankProfile, option: string, speed: Option<string>)
    ensures var r := SwiftFee(amount, bank, option, speed);
      (IsOverride(bank, option) ==> r != NoPricing) &&
      (!IsOverride(bank, option) ==> !r.Thrown?) &&
      (!IsOverride(bank, option) && !EntryFor(bank.transferOut, option).RuleList? ==> r == NoPricing) &&
      (!IsOverride(bank, option) && EntryFor(bank.transferOut, option).RuleList? ==>
        (r == NoPricing <==> SelectTier(EntryFor(bank.transferOut, option).rules, amount, speed).None?)) &&
      (!IsOverride(bank, option) && r.Priced? ==>
        IsCents(r.result.senderFee) && IsCents(r.result.senderPaysTotal) &&
        r.result.senderPaysTotal == Round2(amount + r.result.senderFee))
  {
  }

  /** The fee-type switch and the clamp of `calcSwiftFeeDynamic`, on the chosen tier. */
  method TierFee(tier: Rule, amount: real) returns (senderFee: real)
    ensures senderFee == Clamp(tier, BaseFee(tier, amount))
  {
    senderFee := 0.0;
    if tier.feeValue.Present? && tier.additionalFee.Present? {
      if tier.feeType == Present("fixed") {
        senderFee := tier.feeValue.value + tier.additionalFee.value;
      } else if tier.feeType == Present("percentage") {
        senderFee := amount * tier.feeValue.value + tier.additionalFee.value;
      } else {
        senderFee := amount * tier.feeValue.value + tier.additionalFee.value;
      }
      if tier.maxFee.Present? && tier.minFee.Present? {
        if tier.maxFee.value > 0.0 && senderFee > tier.maxFee.value {
          senderFee := tier.maxFee.value;
        } else if senderFee < tier.minFee.value {
          senderFee := tier.minFee.value;
        }
      }
    }
  }

  /** `calcSwiftFeeDynamic`, with its `rule` and `senderFee` locals updated stage by stage. */
  method CalcSwiftFeeDynamic(amount: real, bank: BankProfile, option: string, speed: Option<string>) returns (r: Outcome)
    ensures IsOverride(bank, option) ==> r == SpecialOutcome(amount, bank) && r != NoPricing
    ensures !IsOverride(bank, option) ==> !r.Thrown?
    ensures !IsOverride(bank, option) && !EntryFor(bank.transferOut, option).RuleList? ==> r == NoPricing
    ensures !IsOverride(bank, option) && EntryFor(bank.transferOut, option).RuleList? ==>
      (r == NoPricing <==> SelectTier(EntryFor(bank.transferOut, option).rules, amount, speed).None?)
    ensures !IsOverride(bank, option) && r.Priced? ==>
      IsCents(r.result.senderFee) && IsCents(r.result.senderPaysTotal) &&
      r.result.senderPaysTotal == Round2(amount + r.result.senderFee)
    ensures r == SwiftFee(amount, bank, option, speed)
  {
    SwiftFeeContract(amount, bank, option, speed);
    if bank.name == OverrideBank && option == "OUR" {
      r := SpecialCalculation(amount, bank);
      return;
    }
    var rulesRaw := EntryFor(bank.transferOut, option);
    if !rulesRaw.RuleList? {
      return NoPricing;
    }
    var rules := rulesRaw.rules;
    var hasSettlementInRules := HasSettlementInRules(rules);
    var rule: Option<nat> := None;
    if hasSettlementInRules && Given(speed) {
      rule := FirstMatch(rules, BySettlement(speed.value), amount);
    }
    if rule.None? {
      rule := FirstMatch(rules, ByBand, amount);
    }
    assert rule == SelectTier(rules, amount, speed);
    if rule.None? {
      return NoPricing;
    }
    var tier := rules[rule.value];
    var senderFee := TierFee(tier, amount);
    var specials := if bank.transferOut.Some? then bank.transferOut.value.special else None;
    var surcharge := SurchargeFor(bank.transferOut, rules, speed);
    if !hasSettlementInRules && Given(speed) && specials.Some? && SpecialValue(specials.value, speed.value).Some? {
      senderFee := senderFee + SpecialValue(specials.value, speed.value).value;
    }
    assert senderFee == Clamp(tier, BaseFee(tier, amount)) + (if surcharge.Some? then surcharge.value else 0.0);
    senderFee := Round2(senderFee);
    var senderPaysTotal := Round2(amount + senderFee);
    r := Priced(FeeResult(senderFee, senderPaysTotal));
  }

  // ---------------------------------------------------------------------------
  // Properties of the specification functions

  /** Any option other than the override's yields `null` when its entry is not a rule array. */
  lemma NoRuleArrayNoPricing(amount: real, bank: BankProfile, option: string, speed: Option<string>)
    requires !IsOverride(bank, option)
    requires !EntryFor(bank.transferOut, option).RuleList?
    ensures SwiftFee(amount, bank, option, speed) == NoPricing
  {
  }

  /**
    The override bank's OUR price is never `null`, even when OUR has no rules at all:
    without both tiers it is a zero fee on the plain amount.
   */
  lemma {:induction false} OverrideWithoutOurRules(amount: real, bank: BankProfile)
    requires bank.name == OverrideBank
    requires EntryFor(bank.transferOut, "OUR").Nullish?
    requires !EntryFor(bank.transferOut, "SHA").NonArray?
    ensures SwiftFee(amount, bank, "OUR", None) == Priced(FeeResult(0.0, amount))
  {
  }

  /**
    Both resolved tiers contribute: the override's fee is the unrounded sum of the two
    `calculate` results, each at least its own `minFee` (default 0).
   */
  lemma OverrideFeeIsSum(amount: real, bank: BankProfile, sha: Rule, our: Rule)
    requires bank.name == OverrideBank
    requires !EntryFor(bank.transferOut, "SHA").NonArray? && !EntryFor(bank.transferOut, "OUR").NonArray?
    requires StrictFind(EntryFor(bank.transferOut, "SHA"), amount) == Some(sha)
    requires StrictFind(EntryFor(bank.transferOut, "OUR"), amount) == Some(our)
    ensures var r := SwiftFee(amount, bank, "OUR", None);
      r.Priced? &&
      r.result.senderFee == RuleFee(sha, amount) + RuleFee(our, amount) &&
      r.result.senderFee >= sha.minFee.Or(0.0) + our.minFee.Or(0.0) &&
      r.result.senderPaysTotal == amount + r.result.senderFee
  {
  }

  /** With a positive cap not below the floor, a clamped fee lies between `minFee` and `maxFee`. */
  lemma ClampWithinBounds(r: Rule, fee: real)
    requires r.feeValue.Present? && r.additionalFee.Present? && r.minFee.Present? && r.maxFee.Present?
    requires 0.0 < r.maxFee.value && r.minFee.value <= r.maxFee.value
    ensures r.minFee.value <= Clamp(r, fee) <= r.maxFee.value
  {
  }

  /**
    The settlement surcharge moves the price by exactly its amount: with no settlement tags
    in the rules, asking for a speed whose surcharge `s` is a whole number of cents gives a
    fee and a total exactly `s` above those of the same request without a speed.
   */
  lemma {:induction false} SurchargeShiftsFee(amount: real, bank: BankProfile, option: string, speed: string, s: real)
    requires !IsOverride(bank, option)
    requires EntryFor(bank.transferOut, option).RuleList?
    requires !HasSettlementInRules(EntryFor(bank.transferOut, option).rules)
    requires speed != "" && bank.transferOut.Some? && bank.transferOut.value.special.Some?
    requires SpecialValue(bank.transferOut.value.special.value, speed) == Some(s)
    requires IsCents(s)
    ensures var with, without := SwiftFee(amount, bank, option, Some(speed)), SwiftFee(amount, bank, option, None);
      with.Priced? == without.Priced? &&
      (with.Priced? ==>
        with.result.senderFee == without.result.senderFee + s &&
        with.result.senderPaysTotal == without.result.senderPaysTotal + s)
  {
    var rules := EntryFor(bank.transferOut, option).rules;
    assert SelectTier(rules, amount, Some(speed)) == SelectTier(rules, amount, None);
    match SelectTier(rules, amount, None)
    case None =>
    case Some(k) =>
      var base := Clamp(rules[k], BaseFee(rules[k], amount));
      Round2AddCents(base, s);
      var fee := Round2(base);
      assert fee + s == Round2(base + s);
      Round2AddCents(amount + fee, s);
      assert amount + (fee + s) == (amount + fee) + s;
  }

  /** When the amount is a whole number of cents, the rounded total is exactly amount plus fee. */
  lemma {:induction false} TotalIsAmountPlusFee(amount: real, bank: BankProfile, option: string, speed: Option<string>)
    requires IsCents(amount)
    requires SwiftFee(amount, bank, option, speed).Priced?
    ensures var r := SwiftFee(amount, bank, option, speed).result;
      r.senderPaysTotal == amount + r.senderFee
  {
    if !IsOverride(bank, option) {
      var r := SwiftFee(amount, bank, option, speed).result;
      CentsAdd(amount, r.senderFee);
      Round2OfCents(amount + r.senderFee);
    }
  }

  /**
    The band tests differ at a minimum: an amount equal to a rule's numeric minimum is in
    the fallback band but not in the override's band.
   */
  lemma BandAsymmetryAtMinimum(r: Rule)
    requires r.minAmount.Present? && r.maxAmount.Null?
    ensures InBand(r, r.minAmount.value) && !InStrictBand(r, r.minAmount.value)
  {
  }

  /**
    A worked tier: one SHA band 0..1000 with a fixed fee of 2 and no additional fee prices
    an amount of 500 at 2.00, for a total of 502.00.
   */
  lemma FixedTierExample(name: string)
    ensures var rule := Rule(Present(0.0), Present(1000.0), Present("fixed"), Present(2.0),
                             Absent, Absent, Present(0.0), Absent);
      var bank := BankProfile(name, Some(TransferOut(map["SHA" := RuleList([rule])], None)), None, None);
      SwiftFee(500.0, bank, "SHA", None) == Priced(FeeResult(2.0, 502.0))
  {
  }
}
