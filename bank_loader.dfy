/**
  The bank store of src/bankLoader.ts: the two datasets, filled by classifying the
  bundled profile modules by file name, and the lookups over them. The bundler's
  `import.meta.glob` is replaced by the sequence of (path, default export) pairs it
  yields, in `Object.entries` order.
 */
module BankLoader {
  import opened Wrappers
  import opened SwiftFeeCalculator

  /** `ClientType`: individuals ("fizicka") or businesses ("pravna"). */
  datatype ClientType = Fizicka | Pravna

  /** A module's default export: an array of bank profiles, or anything else. */
  datatype Export = BankArray(banks: seq<BankProfile>) | NotArray

  /** One `[path, mod]` entry of the bundled modules. */
  datatype ProfileModule = ProfileModule(path: string, default: Export)

  /** The suffix that marks the business dataset. */
  const PravnaFile: string := "bank_profiles_pravna.json"

  /** `s.endsWith(suffix)`. */
  predicate EndsWith(s: string, suffix: string) {
    |suffix| <= |s| && s[|s| - |suffix|..] == suffix
  }

  /** Which dataset a module's path selects: the business one by suffix, otherwise individuals. */
  function ClassOf(path: string): (c: ClientType)
    ensures c == Pravna <==> EndsWith(path, PravnaFile)
  {
    if EndsWith(path, PravnaFile) then Pravna else Fizicka
  }

  /** `Array.isArray(mod.default) ? mod.default : []`. */
  function DataOf(m: ProfileModule): seq<BankProfile> {
    if m.default.BankArray? then m.default.banks else []
  }

  /**
    The dataset of client type `c` once the modules `ms` have been classified, starting
    from an empty dataset: each module classified as `c` replaces it.
   */
  function Loaded(ms: seq<ProfileModule>, c: ClientType): seq<BankProfile>
    decreases |ms|
  {
    if ms == [] then []
    else if ClassOf(ms[|ms| - 1].path) == c then DataOf(ms[|ms| - 1])
    else Loaded(ms[..|ms| - 1], c)
  }

  /**
    Last writer wins: the dataset is the data of the LAST module classified as `c`, and
    empty when no module is.
   */
  lemma {:induction false} LoadedIsLastWriter(ms: seq<ProfileModule>, c: ClientType, i: nat)
    requires i < |ms| && ClassOf(ms[i].path) == c
    requires forall j :: i < j < |ms| ==> ClassOf(ms[j].path) != c
    ensures Loaded(ms, c) == DataOf(ms[i])
    decreases |ms|
  {
    if i < |ms| - 1 {
      var prefix := ms[..|ms| - 1];
      assert forall j :: i < j < |prefix| ==> prefix[j] == ms[j];
      LoadedIsLastWriter(prefix, c, i);
    }
  }

  /** With no module classified as `c`, its dataset stays empty. */
  lemma {:induction false} LoadedEmptyWithoutWriter(ms: seq<ProfileModule>, c: ClientType)
    requires forall j :: 0 <= j < |ms| ==> ClassOf(ms[j].path) != c
    ensures Loaded(ms, c) == []
    decreases |ms|
  {
    if ms != [] {
      var prefix := ms[..|ms| - 1];
      assert forall j :: 0 <= j < |prefix| ==> prefix[j] == ms[j];
      LoadedEmptyWithoutWriter(prefix, c);
    }
  }

  /** `(b) => b.name === name` searched with `find`: the position of the first bank so named. */
  function FirstNamed(banks: seq<BankProfile>, name: string): (k: Option<nat>)
    ensures k.Some? ==> k.value < |banks| && banks[k.value].name == name
    ensures k.Some? ==> forall j :: 0 <= j < k.value ==> banks[j].name != name
    ensures k.None? <==> forall j :: 0 <= j < |banks| ==> banks[j].name != name
  {
    if banks == [] then None
    else if banks[0].name == name then Some(0)
    else
      match FirstNamed(banks[1..], name)
      case None => None
      case Some(i) => Some(i + 1)
  }

  /** The module-level `datasets` record, filled in place by the classification loop. */
  class BankStore {
    var fizicka: seq<BankProfile>
    var pravna: seq<BankProfile>

    /**
      Module initialisation: both datasets start empty, then `forEach` over the modules
      replaces the dataset each module's path selects.
     */
    constructor (modules: seq<ProfileModule>)
      ensures fizicka == Loaded(modules, Fizicka)
      ensures pravna == Loaded(modules, Pravna)
    {
      fizicka := [];
      pravna := [];
      new;
      var i := 0;
      while i < |modules|
        invariant 0 <= i <= |modules|
        invariant fizicka == Loaded(modules[..i], Fizicka)
        invariant pravna == Loaded(modules[..i], Pravna)
      {
        var m := modules[i];
        var data := if m.default.BankArray? then m.default.banks else [];
        if EndsWith(m.path, PravnaFile) {
          pravna := data;
        } else {
          fizicka := data;
        }
        assert modules[..i + 1][..i] == modules[..i];
        i := i + 1;
      }
      assert modules[..i] == modules;
    }

    /** `getAllBanks(client = "fizicka")`: the dataset of the client type, individuals by default. */
    function GetAllBanks(client: Option<ClientType>): (banks: seq<BankProfile>)
      reads this
      ensures client == Some(Pravna) ==> banks == pravna
      ensures client != Some(Pravna) ==> banks == fizicka
    {
      if client == Some(Pravna) then pravna else fizicka
    }

    /**
      `getBankByName`: the first bank of the dataset whose name equals `name` exactly,
      and None exactly when no bank there has that name.
     */
    function GetBankByName(name: string, client: Option<ClientType>): (b: Option<BankProfile>)
      reads this
      ensures b.None? <==> forall j :: 0 <= j < |GetAllBanks(client)| ==> GetAllBanks(client)[j].name != name
      ensures b.Some? ==> b.value.name == name
      ensures b.Some? ==>
        exists i :: 0 <= i < |GetAllBanks(client)| && GetAllBanks(client)[i] == b.value &&
                    forall j :: 0 <= j < i ==> GetAllBanks(client)[j].name != name
    {
      var banks := GetAllBanks(client);
      match FirstNamed(banks, name)
      case None => None
      case Some(i) => Some(banks[i])
    }
  }
}
