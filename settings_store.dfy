/** Persistent settings of src/settings_store.cpp over the key-value
    store of one namespace: load with defaults, range normalisation and the
    migration of the legacy coin index, save, and the WiFi credentials. */
module SettingsStore {

  /** A stored value: the store keeps integers and strings under
      separate types, and reading a key with the other type yields the
      caller's default. */
  datatype Value = IntVal(i: int) | StrVal(s: string)

  /** The keys this code uses in the namespace. */
  datatype Key = UpdPreset | BriPreset | Coin | CoinIndex | TimeFmt | DateFmt | DtSize
               | TzIndex | DayAvg | RfMode | DispCur | WSsid | WPass

  /** The longest key the key-value store accepts, in characters. */
  const NVS_KEY_MAX: int := 15

  /** The key's name in the store; every name fits the store's limit. */
  function KeyName(k: Key): (name: string)
    ensures 0 < |name| <= NVS_KEY_MAX
  {
    match k
    case UpdPreset => "updPreset"
    case BriPreset => "briPreset"
    case Coin => "coin"
    case CoinIndex => "coinIndex"
    case TimeFmt => "timeFmt"
    case DateFmt => "dateFmt"
    case DtSize => "dtSize"
    case TzIndex => "tzIndex"
    case DayAvg => "dayAvg"
    case RfMode => "rfMode"
    case DispCur => "dispCur"
    case WSsid => "w_ssid"
    case WPass => "w_pass"
  }

  /** Different keys have different names, so no two settings share a slot. */
  lemma {:induction false} KeyNamesDistinct(k1: Key, k2: Key)
    requires k1 != k2
    ensures KeyName(k1) != KeyName(k2)
  {
  }

  type Entries = map<Key, Value>

  /** Build-time limits defined in the configuration header, which is not
      part of this model. */
  datatype Limits = Limits(timezoneCount: int, defaultTimezone: int, currUsd: int, currCount: int)

  predicate Sensible(lim: Limits) {
    0 <= lim.defaultTimezone < lim.timezoneCount && 0 <= lim.currUsd < lim.currCount
  }

  /** `StoredSettings`. */
  datatype Settings = Settings(updPreset: int, briPreset: int, coinTicker: string, timeFmt: int,
                               dateFmt: int, dtSize: int, tzIndex: int, dayAvg: int, rfMode: int,
                               dispCur: int)

  /** The struct's member initialisers. */
  function DefaultSettings(lim: Limits): Settings {
    Settings(0, 1, "", 1, 0, 1, lim.defaultTimezone, 1, 1, lim.currUsd)
  }

  const DEFAULT_COIN: string := "BTC"

  /** `legacyTickerFromIndex`: the coin list of the version that stored an index. */
  function LegacyTicker(idx: int): (t: string)
    ensures idx == 0 ==> t == "XRP"
    ensures idx == 1 ==> t == "BTC"
    ensures idx == 2 ==> t == "ETH"
    ensures !(0 <= idx <= 2) ==> t == ""
  {
    if idx == 0 then "XRP" else if idx == 1 then "BTC" else if idx == 2 then "ETH" else ""
  }

  /** `getInt(key, default)`. */
  function GetInt(m: Entries, key: Key, default: int): (v: int)
    ensures key !in m ==> v == default
    ensures key in m && m[key].IntVal? ==> v == m[key].i
  {
    if key in m && m[key].IntVal? then m[key].i else default
  }

  /** `getString(key, default)`. */
  function GetString(m: Entries, key: Key, default: string): (v: string)
    ensures key !in m ==> v == default
    ensures key in m && m[key].StrVal? ==> v == m[key].s
  {
    if key in m && m[key].StrVal? then m[key].s else default
  }

  /** The coin: the Coin key wins, then the legacy index, then the
      default; an empty result is replaced by the default. */
  function ResolveCoin(m: Entries): (c: string)
    ensures c != ""
    ensures Coin in m && GetString(m, Coin, "") != "" ==> c == GetString(m, Coin, "")
    ensures Coin !in m && CoinIndex in m && 0 <= GetInt(m, CoinIndex, 0) <= 2 ==>
              c == LegacyTicker(GetInt(m, CoinIndex, 0))
    ensures Coin in m && GetString(m, Coin, "") == "" ==> c == DEFAULT_COIN
    ensures Coin !in m && CoinIndex in m && !(0 <= GetInt(m, CoinIndex, 0) <= 2) ==> c == DEFAULT_COIN
    ensures Coin !in m && CoinIndex !in m ==> c == DEFAULT_COIN
  {
    var coin := if Coin in m then GetString(m, Coin, "")
                else if CoinIndex in m then LegacyTicker(GetInt(m, CoinIndex, 0))
                else DEFAULT_COIN;
    if |coin| == 0 then DEFAULT_COIN else coin
  }

  /** The date/time size setting: anything but 0 and 1 becomes 1. */
  function NormalDtSize(v: int): (r: int)
    ensures r == 0 || r == 1
    ensures v == 0 || v == 1 ==> r == v
  {
    if v < 0 then 1 else if v > 1 then 1 else v
  }

  function NormalTz(v: int, lim: Limits): (r: int)
    ensures 0 <= v < lim.timezoneCount ==> r == v
    ensures !(0 <= v < lim.timezoneCount) ==> r == lim.defaultTimezone
  {
    if v < 0 then lim.defaultTimezone
    else if v >= lim.timezoneCount then lim.defaultTimezone
    else v
  }

  function NormalCur(v: int, lim: Limits): (r: int)
    ensures 0 <= v < lim.currCount ==> r == v
    ensures !(0 <= v < lim.currCount) ==> r == lim.currUsd
  {
    if v < 0 || v >= lim.currCount then lim.currUsd else v
  }

  /** What a successful `settingsStoreLoad` leaves in `out`, given the
      entries and `out`'s prior contents. */
  function Loaded(m: Entries, prior: Settings, lim: Limits): (s: Settings)
    ensures s.coinTicker != ""
    ensures s.dtSize == 0 || s.dtSize == 1
    ensures Sensible(lim) ==> 0 <= s.tzIndex < lim.timezoneCount && 0 <= s.dispCur < lim.currCount
    ensures UpdPreset !in m ==> s.updPreset == prior.updPreset
    ensures BriPreset !in m ==> s.briPreset == prior.briPreset
    ensures TimeFmt !in m ==> s.timeFmt == prior.timeFmt
    ensures DateFmt !in m ==> s.dateFmt == prior.dateFmt
    ensures DayAvg !in m ==> s.dayAvg == prior.dayAvg
    ensures RfMode !in m ==> s.rfMode == prior.rfMode
    ensures DtSize !in m ==> s.dtSize == NormalDtSize(prior.dtSize)
    ensures TzIndex !in m ==> s.tzIndex == NormalTz(lim.defaultTimezone, lim)
    ensures DispCur !in m ==> s.dispCur == NormalCur(lim.currUsd, lim)
  {
    Settings(
      GetInt(m, UpdPreset, prior.updPreset),
      GetInt(m, BriPreset, prior.briPreset),
      ResolveCoin(m),
      GetInt(m, TimeFmt, prior.timeFmt),
      GetInt(m, DateFmt, prior.dateFmt),
      NormalDtSize(GetInt(m, DtSize, prior.dtSize)),
      NormalTz(GetInt(m, TzIndex, lim.defaultTimezone), lim),
      GetInt(m, DayAvg, prior.dayAvg),
      GetInt(m, RfMode, prior.rfMode),
      NormalCur(GetInt(m, DispCur, lim.currUsd), lim))
  }

  /** An old store holding only the legacy index migrates to its ticker. */
  lemma {:induction false} LegacyMigration(idx: int, prior: Settings, lim: Limits)
    ensures Loaded(map[CoinIndex := IntVal(idx)], prior, lim).coinTicker
            == if 0 <= idx <= 2 then LegacyTicker(idx) else DEFAULT_COIN
  {
  }

  /** The store's answer to a put: the number of bytes written, which is
      4 for an integer and the string's length for a string; 0 when the
      key cannot be written. */
  function PutBytes(v: Value, writable: bool): (n: nat)
    ensures !writable ==> n == 0
    ensures writable && v.IntVal? ==> n == 4
    ensures writable && v.StrVal? ==> n == |v.s|
  {
    if !writable then 0 else if v.IntVal? then 4 else |v.s|
  }

  /** A put's effect on the entries. */
  function PutInto(m: Entries, k: Key, v: Value, failing: set<Key>): Entries {
    if k in failing then m else m[k := v]
  }

  /** A removal's effect on the entries. */
  function RemoveFrom(m: Entries, k: Key, failing: set<Key>): Entries {
    if k in failing then m else m - {k}
  }

  /** The entries after a save with the namespace open: each writable key
      is put in turn, and the legacy index is removed when it can be. */
  function AfterSave(m: Entries, s: Settings, failing: set<Key>): (r: Entries)
    ensures CoinIndex !in failing ==> CoinIndex !in r
  {
    var m1 := PutInto(m, UpdPreset, IntVal(s.updPreset), failing);
    var m2 := PutInto(m1, BriPreset, IntVal(s.briPreset), failing);
    var m3 := PutInto(m2, Coin, StrVal(s.coinTicker), failing);
    var m4 := PutInto(m3, TimeFmt, IntVal(s.timeFmt), failing);
    var m5 := PutInto(m4, DateFmt, IntVal(s.dateFmt), failing);
    var m6 := PutInto(m5, DtSize, IntVal(s.dtSize), failing);
    var m7 := PutInto(m6, TzIndex, IntVal(s.tzIndex), failing);
    var m8 := PutInto(m7, DayAvg, IntVal(s.dayAvg), failing);
    var m9 := PutInto(m8, RfMode, IntVal(s.rfMode), failing);
    var m10 := PutInto(m9, DispCur, IntVal(s.dispCur), failing);
    if CoinIndex in m10 then RemoveFrom(m10, CoinIndex, failing) else m10
  }

  /** A settings save leaves every key it does not write, the WiFi
      credentials among them, as it was. */
  lemma {:induction false} SaveKeepsOtherKeys(m: Entries, s: Settings, failing: set<Key>, k: Key)
    requires k !in SAVED_KEYS && k != CoinIndex
    ensures k in AfterSave(m, s, failing) <==> k in m
    ensures k in m ==> AfterSave(m, s, failing)[k] == m[k]
  {
  }

  /** The keys `settingsStoreSave` puts. */
  const SAVED_KEYS: set<Key> := {UpdPreset, BriPreset, Coin, TimeFmt, DateFmt, DtSize, TzIndex, DayAvg, RfMode, DispCur}

  /** The conjunction `settingsStoreSave` returns: every put wrote a
      positive number of bytes. That is, no saved key fails and the ticker
      is not empty: an empty ticker is stored, but its put writes zero
      bytes. */
  predicate SaveOk(s: Settings, failing: set<Key>)
    ensures SaveOk(s, failing) <==> SAVED_KEYS !! failing && s.coinTicker != ""
  {
    && PutBytes(IntVal(s.updPreset), UpdPreset !in failing) > 0
    && PutBytes(IntVal(s.briPreset), BriPreset !in failing) > 0
    && PutBytes(StrVal(s.coinTicker), Coin !in failing) > 0
    && PutBytes(IntVal(s.timeFmt), TimeFmt !in failing) > 0
    && PutBytes(IntVal(s.dateFmt), DateFmt !in failing) > 0
    && PutBytes(IntVal(s.dtSize), DtSize !in failing) > 0
    && PutBytes(IntVal(s.tzIndex), TzIndex !in failing) > 0
    && PutBytes(IntVal(s.dayAvg), DayAvg !in failing) > 0
    && PutBytes(IntVal(s.rfMode), RfMode !in failing) > 0
    && PutBytes(IntVal(s.dispCur), DispCur !in failing) > 0
  }

  /** Normalising a settings value the way a load would. */
  function Normalised(s: Settings, lim: Limits): (t: Settings)
    ensures t.coinTicker != ""
    ensures t.dtSize == 0 || t.dtSize == 1
  {
    s.(coinTicker := if s.coinTicker == "" then DEFAULT_COIN else s.coinTicker,
       dtSize := NormalDtSize(s.dtSize),
       tzIndex := NormalTz(s.tzIndex, lim),
       dispCur := NormalCur(s.dispCur, lim))
  }

  /** Save then load gives back what was saved, normalised, whatever the
      store held before and whatever `out` held: the saved ticker beats
      any legacy index. */
  lemma {:induction false} LoadAfterSave(m: Entries, s: Settings, prior: Settings, lim: Limits)
    ensures Loaded(AfterSave(m, s, {}), prior, lim) == Normalised(s, lim)
  {
    var r := AfterSave(m, s, {});
    assert UpdPreset in r && r[UpdPreset] == IntVal(s.updPreset);
    assert BriPreset in r && r[BriPreset] == IntVal(s.briPreset);
    assert Coin in r && r[Coin] == StrVal(s.coinTicker);
    assert TimeFmt in r && r[TimeFmt] == IntVal(s.timeFmt);
    assert DateFmt in r && r[DateFmt] == IntVal(s.dateFmt);
    assert DtSize in r && r[DtSize] == IntVal(s.dtSize);
    assert TzIndex in r && r[TzIndex] == IntVal(s.tzIndex);
    assert DayAvg in r && r[DayAvg] == IntVal(s.dayAvg);
    assert RfMode in r && r[RfMode] == IntVal(s.rfMode);
    assert DispCur in r && r[DispCur] == IntVal(s.dispCur);
  }

  /** Loading normalised settings back is the identity on them. */
  lemma {:induction false} NormaliseIdempotent(s: Settings, lim: Limits)
    ensures Normalised(Normalised(s, lim), lim) == Normalised(s, lim)
  {
  }

  // ---------------------------------------------------------------- WiFi

  const SSID_KEY: Key := WSsid
  const PASS_KEY: Key := WPass

  function LoadedWifi(m: Entries): (r: (string, string))
    ensures SSID_KEY !in m ==> r.0 == ""
    ensures PASS_KEY !in m ==> r.1 == ""
  {
    (GetString(m, SSID_KEY, ""), GetString(m, PASS_KEY, ""))
  }

  function AfterSaveWifi(m: Entries, ssid: string, pass: string, failing: set<Key>): (r: Entries)
    ensures SSID_KEY !in failing ==> SSID_KEY in r && r[SSID_KEY] == StrVal(ssid)
    ensures PASS_KEY !in failing ==> PASS_KEY in r && r[PASS_KEY] == StrVal(pass)
    ensures forall k :: k != SSID_KEY && k != PASS_KEY ==> (k in r <==> k in m) && (k in m ==> r[k] == m[k])
  {
    var a := if SSID_KEY in failing then m else m[SSID_KEY := StrVal(ssid)];
    if PASS_KEY in failing then a else a[PASS_KEY := StrVal(pass)]
  }

  function AfterClearWifi(m: Entries, failing: set<Key>): (r: Entries)
    ensures SSID_KEY !in failing ==> SSID_KEY !in r
    ensures PASS_KEY !in failing ==> PASS_KEY !in r
    ensures forall k :: k != SSID_KEY && k != PASS_KEY ==> (k in r <==> k in m) && (k in m ==> r[k] == m[k])
  {
    var a := if SSID_KEY in failing then m else m - {SSID_KEY};
    if PASS_KEY in failing then a else a - {PASS_KEY}
  }

  /** Credentials read back as they were written. */
  lemma {:induction false} WifiRoundTrip(m: Entries, ssid: string, pass: string)
    ensures LoadedWifi(AfterSaveWifi(m, ssid, pass, {})) == (ssid, pass)
  {
  }

  /** After a clear the credentials read back empty. */
  lemma {:induction false} WifiCleared(m: Entries)
    ensures LoadedWifi(AfterClearWifi(m, {})) == ("", "")
  {
  }

  /** The namespace of the store. `openable` is whether it can be opened
      at all; `failing` are the keys whose writes and removals fail. */
  class Store {
    var entries: Entries
    var openable: bool
    var failing: set<Key>

    constructor (initial: Entries, canOpen: bool, broken: set<Key>)
      ensures entries == initial && openable == canOpen && failing == broken
    {
      entries, openable, failing := initial, canOpen, broken;
    }

    /** The coin part of `settingsStoreLoad`: the `coin` key, else the
        legacy index, else BTC, and BTC for an empty result. */
    method ReadCoin() returns (coin: string)
      ensures coin == ResolveCoin(entries)
    {
      if Coin in entries {
        coin := GetString(entries, Coin, "");
      } else if CoinIndex in entries {
        var legacyIdx := GetInt(entries, CoinIndex, 0);
        coin := LegacyTicker(legacyIdx);
      } else {
        coin := DEFAULT_COIN;
      }
      if |coin| == 0 {
        coin := DEFAULT_COIN;
      }
    }

    /** `settingsStoreLoad`: false and `out` untouched when the namespace
      cannot be opened; otherwise `out` field by field. */
    method Load(out: Settings, lim: Limits) returns (ok: bool, res: Settings)
      ensures ok == openable
      ensures !ok ==> res == out
      ensures ok ==> res == Loaded(entries, out, lim)
    {
      if !openable {
        return false, out;
      }
      res := out;
      res := res.(updPreset := GetInt(entries, UpdPreset, res.updPreset));
      res := res.(briPreset := GetInt(entries, BriPreset, res.briPreset));

      var coin := ReadCoin();
      res := res.(coinTicker := coin);

      res := res.(timeFmt := GetInt(entries, TimeFmt, res.timeFmt));
      res := res.(dateFmt := GetInt(entries, DateFmt, res.dateFmt));
      res := res.(dtSize := GetInt(entries, DtSize, res.dtSize));
      if res.dtSize < 0 {
        res := res.(dtSize := 1);
      }
      if res.dtSize > 1 {
        res := res.(dtSize := 1);
      }
      res := res.(tzIndex := GetInt(entries, TzIndex, lim.defaultTimezone));
      if res.tzIndex < 0 {
        res := res.(tzIndex := lim.defaultTimezone);
      }
      if res.tzIndex >= lim.timezoneCount {
        res := res.(tzIndex := lim.defaultTimezone);
      }
      res := res.(dayAvg := GetInt(entries, DayAvg, res.dayAvg));
      res := res.(rfMode := GetInt(entries, RfMode, res.rfMode));

      res := res.(dispCur := GetInt(entries, DispCur, lim.currUsd));
      if res.dispCur < 0 || res.dispCur >= lim.currCount {
        res := res.(dispCur := lim.currUsd);
      }
      ok := true;
    }

    /** One put: write unless the key fails; report the bytes written. */
    method Put(key: Key, v: Value) returns (bytes: nat)
      modifies this`entries
      ensures bytes == PutBytes(v, key !in failing)
      ensures entries == PutInto(old(entries), key, v, failing)
    {
      if key in failing {
        return 0;
      }
      entries := entries[key := v];
      bytes := PutBytes(v, true);
    }

    /** `settingsStoreSave`. */
    method Save(s: Settings) returns (ok: bool)
      modifies this`entries
      ensures !openable ==> !ok && entries == old(entries)
      ensures openable ==> ok == SaveOk(s, failing) && entries == AfterSave(old(entries), s, failing)
    {
      if !openable {
        return false;
      }
      var n1 := Put(UpdPreset, IntVal(s.updPreset));
      var n2 := Put(BriPreset, IntVal(s.briPreset));
      var n3 := Put(Coin, StrVal(s.coinTicker));
      var n4 := Put(TimeFmt, IntVal(s.timeFmt));
      var n5 := Put(DateFmt, IntVal(s.dateFmt));
      var n6 := Put(DtSize, IntVal(s.dtSize));
      var n7 := Put(TzIndex, IntVal(s.tzIndex));
      var n8 := Put(DayAvg, IntVal(s.dayAvg));
      var n9 := Put(RfMode, IntVal(s.rfMode));
      var n10 := Put(DispCur, IntVal(s.dispCur));
      ok := n1 > 0 && n2 > 0 && n3 > 0 && n4 > 0 && n5 > 0 && n6 > 0 && n7 > 0 && n8 > 0 && n9 > 0 && n10 > 0;
      if CoinIndex in entries {
        var _ := Remove(CoinIndex);
      }
    }

    /** One removal: it fails on a failing key. */
    method Remove(key: Key) returns (removed: bool)
      modifies this`entries
      ensures removed <==> key !in failing
      ensures entries == RemoveFrom(old(entries), key, failing)
    {
      if key in failing {
        return false;
      }
      entries := entries - {key};
      removed := true;
    }

    /** `settingsStoreLoadWifi`: the caller's strings come back untouched
      when the namespace cannot be opened. */
    method LoadWifi(outSsid: string, outPass: string) returns (ok: bool, ssid: string, pass: string)
      ensures ok == openable
      ensures !ok ==> ssid == outSsid && pass == outPass
      ensures ok ==> (ssid, pass) == LoadedWifi(entries)
    {
      if !openable {
        return false, outSsid, outPass;
      }
      ssid := GetString(entries, SSID_KEY, "");
      pass := GetString(entries, PASS_KEY, "");
      ok := true;
    }

    /** `settingsStoreSaveWifi`: an empty SSID or password is stored but
      reported as a failed write. */
    method SaveWifi(ssid: string, pass: string) returns (ok: bool)
      modifies this`entries
      ensures !openable ==> !ok && entries == old(entries)
      ensures openable ==> entries == AfterSaveWifi(old(entries), ssid, pass, failing)
      ensures openable ==> (ok <==> SSID_KEY !in failing && PASS_KEY !in failing && ssid != "" && pass != "")
    {
      if !openable {
        return false;
      }
      var a := Put(SSID_KEY, StrVal(ssid));
      var b := Put(PASS_KEY, StrVal(pass));
      ok := a > 0 && b > 0;
    }

    /** `settingsStoreClearWifi`: remove each key present. */
    method ClearWifi() returns (ok: bool)
      modifies this`entries
      ensures !openable ==> !ok && entries == old(entries)
      ensures openable ==> entries == AfterClearWifi(old(entries), failing)
      ensures openable ==> (ok <==> !(SSID_KEY in old(entries) && SSID_KEY in failing)
                                    && !(PASS_KEY in old(entries) && PASS_KEY in failing))
    {
      if !openable {
        return false;
      }
      ok := true;
      if SSID_KEY in entries {
        var removed := Remove(SSID_KEY);
        ok := ok && removed;
      }
      if PASS_KEY in entries {
        var removed := Remove(PASS_KEY);
        ok := ok && removed;
      }
    }

    /** `settingsStoreHasTzIndex`. */
    method HasTzIndex() returns (has: bool)
      ensures has <==> openable && TzIndex in entries
    {
      if !openable {
        return false;
      }
      has := TzIndex in entries;
    }
  }
}
