/**
 * Model of the logic in `octo_api/products.py`: the converters for a
 * product's `term` and `links`, and the table of regional tariffs that
 * `_parse_tariffs` builds for a detailed product, with its `repr`.
 */
module Products {
  import opened Wrappers
  import opened Builtins
  import opened Dicts

  // ---------------------------------------------------------------------
  // Field converters

  /** `_term_converter(term)`: `None` stays `None`, anything else goes through `int`. */
  function TermConverter(term: Json): (r: Result<Option<int>, PyError>)
    ensures term.JNull? ==> r == Ok(None)
    ensures term.JInt? ==> r == Ok(Some(term.i))
    ensures !term.JNull? ==> (r.Ok? <==> Int(term).Ok?) && (r.Ok? ==> r.value == Some(Int(term).value))
    ensures !term.JNull? && Int(term).Err? ==> r == Err(Int(term).error)
  {
    if term.JNull? then Ok(None)
    else match Int(term)
      case Ok(n) => Ok(Some(n))
      case Err(e) => Err(e)
  }

  /** A term sent as text converts to the same months as one sent as a number. */
  lemma TermConverterText(months: int)
    ensures TermConverter(JStr(IntToDecimal(months))) == TermConverter(JInt(months)) == Ok(Some(months))
  {
    IntRoundTrip(months);
  }

  /** `_links_converter(iterable)`: a list of the same links in the same order. */
  function LinksConverter<L>(iterable: seq<L>): (r: seq<L>)
    ensures |r| == |iterable|
    ensures forall i :: 0 <= i < |r| ==> r[i] == iterable[i]
  {
    iterable
  }

  // ---------------------------------------------------------------------
  // RegionalTariffs

  /** A dict of dicts, every one of them well formed. */
  ghost predicate NestedValid<V>(d: Dict<Dict<V>>) {
    d.Valid() && forall g :: g in d.entries ==> d.entries[g].Valid()
  }

  /**
   * The table `_parse_tariffs` promises: the same regions in the same order,
   * each holding its payment methods mapped through `tariff`.
   */
  function Parsed<R, T>(tariffsDict: Dict<Dict<R>>, tariff: R -> T): (r: Dict<Dict<T>>)
    requires NestedValid(tariffsDict)
    ensures NestedValid(r) && r.keys == tariffsDict.keys
    ensures forall g :: g in r.entries <==> g in tariffsDict.entries
    ensures forall g :: g in tariffsDict.entries ==> r.entries[g] == MapValues(tariffsDict.entries[g], tariff)
  {
    MapValues(tariffsDict, RegionParser(tariff))
  }

  /** What `_parse_tariffs` does with one region: its payment methods mapped through `tariff`. */
  function RegionParser<R, T>(tariff: R -> T): Dict<R> -> Dict<T> {
    paymentMethods => MapValues(paymentMethods, tariff)
  }

  /**
   * Entry by entry: under each region the table has exactly the input's
   * payment methods, in the input's order, each holding the `Tariff` built
   * from that raw entry, and nothing else.
   */
  lemma ParsedEntries<R, T>(tariffsDict: Dict<Dict<R>>, tariff: R -> T, gsp: string)
    requires NestedValid(tariffsDict)
    ensures gsp in Parsed(tariffsDict, tariff).entries <==> gsp in tariffsDict.entries
    ensures gsp in tariffsDict.entries ==>
      var parsed := Parsed(tariffsDict, tariff).entries[gsp];
      var raw := tariffsDict.entries[gsp];
      && parsed.keys == raw.keys
      && (forall m :: m in parsed.entries <==> m in raw.entries)
      && (forall m :: m in raw.entries ==> parsed.entries[m] == tariff(raw.entries[m]))
  {
  }

  /** `', '.join(keys)`. */
  function Join(keys: seq<string>): string {
    if |keys| == 0 then ""
    else if |keys| == 1 then keys[0]
    else keys[0] + ", " + Join(keys[1..])
  }

  /** `RegionalTariffs.__repr__` for a table whose keys are `keys`: the keys, unquoted, in order. */
  function ReprOf(keys: seq<string>): string {
    "RegionalTariffs([" + Join(keys) + "])"
  }

  /** The table of an empty input renders as `RegionalTariffs([])`. */
  lemma ReprOfEmpty<R, T>(tariff: R -> T)
    ensures Parsed(Empty<Dict<R>>(), tariff) == Empty()
    ensures ReprOf(Parsed(Empty<Dict<R>>(), tariff).keys) == "RegionalTariffs([])"
  {
  }

  /** Splits text at each `", "`: what reading the key list back out of a `repr` does. */
  function Unjoin(s: string): (parts: seq<string>)
    ensures |parts| >= 1
    decreases |s|
  {
    if s == [] then [""]
    else if |s| >= 2 && s[0] == ',' && s[1] == ' ' then [""] + Unjoin(s[2..])
    else
      var rest := Unjoin(s[1..]);
      [[s[0]] + rest[0]] + rest[1..]
  }

  lemma {:induction false} UnjoinKey(key: string, t: string)
    requires ',' !in key
    ensures Unjoin(key + ", " + t) == [key] + Unjoin(t)
  {
    if key == [] {
      assert key + ", " + t == ", " + t;
      assert (", " + t)[2..] == t;
    } else {
      assert (key + ", " + t)[1..] == key[1..] + ", " + t;
      assert ',' !in key[1..];
      UnjoinKey(key[1..], t);
      assert [key[0]] + key[1..] == key;
    }
  }

  lemma {:induction false} UnjoinPlain(key: string)
    requires ',' !in key
    ensures Unjoin(key) == [key]
  {
    if key != [] {
      assert ',' !in key[1..];
      UnjoinPlain(key[1..]);
      assert [key[0]] + key[1..] == key;
    }
  }

  /** For keys without commas, splitting the joined keys gives the keys back. */
  lemma {:induction false} UnjoinJoin(keys: seq<string>)
    requires |keys| >= 1
    requires forall i :: 0 <= i < |keys| ==> ',' !in keys[i]
    ensures Unjoin(Join(keys)) == keys
  {
    if |keys| == 1 {
      UnjoinPlain(keys[0]);
    } else {
      UnjoinJoin(keys[1..]);
      UnjoinKey(keys[0], Join(keys[1..]));
      assert [keys[0]] + keys[1..] == keys;
    }
  }

  /** Reads a `RegionalTariffs` repr back into its list of keys. */
  function ParseRepr(s: string): Option<seq<string>> {
    if |s| >= 19 && s[..17] == "RegionalTariffs([" && s[|s| - 2..] == "])" then
      var inner := s[17..|s| - 2];
      Some(if inner == "" then [] else Unjoin(inner))
    else None
  }

  /**
   * The repr names every key of the table, in order: for non-empty keys
   * without commas (such as the region codes) it can be read back exactly.
   */
  lemma ReprRoundTrip(keys: seq<string>)
    requires forall i :: 0 <= i < |keys| ==> keys[i] != "" && ',' !in keys[i]
    ensures ParseRepr(ReprOf(keys)) == Some(keys)
  {
    var s := ReprOf(keys);
    assert s[..17] == "RegionalTariffs([";
    assert s[|s| - 2..] == "])";
    assert s[17..|s| - 2] == Join(keys);
    if |keys| >= 1 {
      UnjoinJoin(keys);
      assert Join(keys) != "" by {
        if |keys| == 1 {
          assert keys[0] != "";
        }
      }
    }
  }

  /**
   * Mapping of regions to a mapping of payment methods to tariffs: a `dict`
   * subclass, whose entries `_parse_tariffs` fills in place.
   */
  class RegionalTariffs<T> {
    var table: Dict<Dict<T>>

    ghost predicate Valid()
      reads this
    {
      NestedValid(table)
    }

    /** `RegionalTariffs()`: an empty table. */
    constructor ()
      ensures Valid() && table == Empty()
    {
      table := Empty();
    }

    /** `self[gsp] = {}`. */
    method ClearRegion(gsp: string)
      requires Valid()
      modifies this
      ensures Valid() && table == SetItem(old(table), gsp, Empty())
    {
      table := SetItem(table, gsp, Empty());
    }

    /** `self[gsp][paymentMethod] = tariff`, on a region already in the table. */
    method SetTariff(gsp: string, paymentMethod: string, tariff: T)
      requires Valid() && gsp in table.entries
      modifies this
      ensures Valid()
      ensures table == SetItem(old(table), gsp, SetItem(old(table).entries[gsp], paymentMethod, tariff))
    {
      table := SetItem(table, gsp, SetItem(table.entries[gsp], paymentMethod, tariff));
    }

    /** `repr(self)`. */
    function Repr(): string
      reads this
    {
      ReprOf(table.keys)
    }
  }

  /** Setting a region to a well-formed dict keeps the input well formed. */
  lemma NestedSetItem<R>(d: Dict<Dict<R>>, gsp: string, paymentMethods: Dict<R>)
    requires NestedValid(d) && paymentMethods.Valid()
    ensures NestedValid(SetItem(d, gsp, paymentMethods))
  {
    var d' := SetItem(d, gsp, paymentMethods);
    forall g | g in d'.entries
      ensures d'.entries[g].Valid()
    {
      if g != gsp {
        assert d'.entries[g] == d.entries[g];
      }
    }
  }

  /** The first `n` regions of a well-formed input form a well-formed input. */
  lemma TakeNested<R>(d: Dict<Dict<R>>, n: nat)
    requires NestedValid(d) && n <= |d.keys|
    ensures NestedValid(Take(d, n))
  {
  }

  /** Adding a region to the input adds its parsed payment methods to the table. */
  lemma ParsedSetItem<R, T>(d: Dict<Dict<R>>, gsp: string, paymentMethods: Dict<R>, tariff: R -> T)
    requires NestedValid(d) && paymentMethods.Valid() && NestedValid(SetItem(d, gsp, paymentMethods))
    ensures Parsed(SetItem(d, gsp, paymentMethods), tariff) == SetItem(Parsed(d, tariff), gsp, MapValues(paymentMethods, tariff))
  {
    MapValuesSetItem(d, gsp, paymentMethods, RegionParser(tariff));
  }

  /** Storing the tariff of one more payment method extends the region's parsed prefix. */
  lemma FillStep<R, T>(done: Dict<Dict<T>>, gsp: string, paymentMethods: Dict<R>, tariff: R -> T, j: nat)
    requires done.Valid() && paymentMethods.Valid() && j < |paymentMethods.keys|
    ensures
      var filled := SetItem(done, gsp, MapValues(Take(paymentMethods, j), tariff));
      var paymentMethod := paymentMethods.keys[j];
      SetItem(filled, gsp, SetItem(filled.entries[gsp], paymentMethod, tariff(paymentMethods.entries[paymentMethod])))
        == SetItem(done, gsp, MapValues(Take(paymentMethods, j + 1), tariff))
  {
    var paymentMethod := paymentMethods.keys[j];
    TakeNext(paymentMethods, j);
    MapValuesSetItem(Take(paymentMethods, j), paymentMethod, paymentMethods.entries[paymentMethod], tariff);
    SetItemTwice(done, gsp, MapValues(Take(paymentMethods, j), tariff), MapValues(Take(paymentMethods, j + 1), tariff));
  }

  /**
   * `_parse_tariffs(tariffs_dict)`: a new table filled region by region and,
   * within a region, payment method by payment method. `tariff` stands for the
   * `Tariff(**raw)` constructor.
   */
  method ParseTariffs<R, T>(tariffsDict: Dict<Dict<R>>, tariff: R -> T) returns (tariffs: RegionalTariffs<T>)
    requires NestedValid(tariffsDict)
    ensures fresh(tariffs) && tariffs.Valid()
    ensures tariffs.table == Parsed(tariffsDict, tariff)
    ensures tariffs.Repr() == ReprOf(tariffsDict.keys)
  {
    tariffs := new RegionalTariffs();
    TakeNone(tariffsDict);
    var i := 0;
    while i < |tariffsDict.keys|
      invariant 0 <= i <= |tariffsDict.keys|
      invariant tariffs.Valid() && NestedValid(Take(tariffsDict, i))
      invariant tariffs.table == Parsed(Take(tariffsDict, i), tariff)
    {
      var gsp := tariffsDict.keys[i];
      var paymentMethods := tariffsDict.entries[gsp];
      ghost var done := tariffs.table;
      tariffs.ClearRegion(gsp);
      TakeNone(paymentMethods);
      var j := 0;
      while j < |paymentMethods.keys|
        invariant 0 <= j <= |paymentMethods.keys|
        invariant tariffs.Valid()
        invariant tariffs.table == SetItem(done, gsp, MapValues(Take(paymentMethods, j), tariff))
      {
        var paymentMethod := paymentMethods.keys[j];
        FillStep(done, gsp, paymentMethods, tariff, j);
        tariffs.SetTariff(gsp, paymentMethod, tariff(paymentMethods.entries[paymentMethod]));
        j := j + 1;
      }
      TakeAll(paymentMethods);
      TakeNext(tariffsDict, i);
      NestedSetItem(Take(tariffsDict, i), gsp, paymentMethods);
      ParsedSetItem(Take(tariffsDict, i), gsp, paymentMethods, tariff);
      TakeNested(tariffsDict, i + 1);
      i := i + 1;
    }
    TakeAll(tariffsDict);
  }
}
