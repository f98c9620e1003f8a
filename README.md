# octo-api: tariff tables, wire codes and timestamps in Dafny

This project models the logic of two modules of `octo_api`, a client for the Octopus Energy REST API:

- `octo_api/products.py`. The converters for a product's `term` and `links` fields. `_parse_tariffs`, which builds a `RegionalTariffs` table (region code → payment method → `Tariff`) from the decoded JSON by filling a new dict in place with two nested loops. The table's `repr`.
- `octo_api/utils.py`. `from_iso_zulu`, which accepts `None`, a `datetime` or an ISO 8601 string in which `Z` means UTC. The closed enumerations `RateType` and `Region`, decoded from their wire strings. `MeterPointDetails._from_dict`.

How the model is laid out:

- `wrappers.dfy`: `Option` (Python's `Optional`) and `Result` (a value, or the exception a call raises).
- `dicts.dfy`: a Python `dict` with string keys, as a value. Keys are kept in insertion order; `SetItem` is `d[k] = v`.
- `builtins.dfy`: the JSON scalars the API returns, Python's exceptions `KeyError`, `ValueError` and `TypeError`, and the built-ins `str(x)` and `int(x)` on those scalars.
- `utils.dfy` and `products.dfy`: one module per source file.

`RegionalTariffs` is a class. Its one field `table` is reassigned by `ClearRegion` (`self[gsp] = {}`) and `SetTariff` (`self[gsp][method] = ...`). `ParseTariffs` is the nested loop over a fresh instance. It is proved against the specification function `Parsed`, and the loop invariants say which regions and payment methods are done.

Three things the source calls become parameters:

- `Tariff(**raw)` becomes a function `tariff: R -> T`.
- `datetime.fromisoformat` becomes a function `fromIsoFormat: string -> Option<D>`, where `None` stands for its `ValueError`.
- The raw entry type `R` and the `datetime` type `D` stay generic.

## Model

| member | source | states |
|---|---|---|
| Products.TermConverter | octo_api/products.py:45-55 | `None` converts to `None`. An integer term converts to the same integer. Any other value goes through `int`: it succeeds exactly when `int` does, and `int`'s own error is the one raised. |
| Products.TermConverterText | octo_api/products.py:52-55 | A term given as the decimal text of n converts to n, the same as the number n. |
| Products.LinksConverter | octo_api/products.py:58-59 | The result has the same length as the input and the same links at every position. |
| Products.Parsed | octo_api/products.py:126-141 | The table `_parse_tariffs` produces is well formed, has exactly the input's region keys in input order, and maps each region to its payment methods mapped through `Tariff`. |
| Products.ParsedEntries | octo_api/products.py:135-139 | Under each region, the payment-method keys are exactly the input's, in the input's order. Every stored entry is `Tariff` of the raw entry, and nothing else is stored. |
| Products.ParseTariffs | octo_api/products.py:126-141 | Returns a newly allocated, well-formed `RegionalTariffs` whose table equals `Parsed` of the input. Its repr lists the input's region keys. |
| Products.RegionalTariffs.constructor | octo_api/products.py:133 | A new `RegionalTariffs` is empty. |
| Products.RegionalTariffs.ClearRegion | octo_api/products.py:136 | `tariffs[gsp] = {}` sets the region to an empty dict and keeps the table well formed. |
| Products.RegionalTariffs.SetTariff | octo_api/products.py:139 | `tariffs[gsp][method] = t` changes only that region's entry for that method and keeps the table well formed. |
| Products.NestedSetItem | octo_api/products.py:136 | Storing a well-formed dict under a region keeps a dict of dicts well formed. |
| Products.TakeNested | octo_api/products.py:135 | The first n regions of a well-formed input form a well-formed input. |
| Products.ParsedSetItem | octo_api/products.py:135-139 | When the outer loop stores one more region, the table stays equal to `Parsed` of the regions handled so far. |
| Products.FillStep | octo_api/products.py:138-139 | When the inner loop stores one more payment method, the region holds the parsed first j+1 payment methods. |
| Products.RegionParser | octo_api/products.py:138-139 | Defines what the inner loop does to one region: its payment methods mapped through `Tariff`, as a function `Parsed` applies to every region. |
| Products.Join | octo_api/products.py:257 | Defines `', '.join(keys)`: nothing for no keys, the key itself for one, otherwise the first key, `", "` and the join of the rest. |
| Products.ReprOf | octo_api/products.py:256-257 | Defines the repr text: `RegionalTariffs([`, the joined keys unquoted, then `])`. |
| Products.RegionalTariffs.Repr | octo_api/products.py:256-257 | `repr(self)` is `ReprOf` of the table's keys in their order. |
| Products.ReprOfEmpty | octo_api/products.py:256-257 | Parsing an empty input gives an empty table, whose repr is `RegionalTariffs([])`. |
| Products.UnjoinJoin | octo_api/products.py:257 | For keys without commas, splitting `', '.join(keys)` at `", "` gives the keys back. |
| Products.ReprRoundTrip | octo_api/products.py:256-257 | The repr is `RegionalTariffs([` + the keys joined by `", "` in key order + `])`. For non-empty keys without commas, the key list can be read back from it exactly. |
| Dicts.Empty | octo_api/products.py:136 | `{}` is a well-formed dict with no keys. |
| Dicts.SetItem | octo_api/products.py:139 | `d[k] = v` maps k to v and leaves every other entry as it was. A new key goes last in the key order; an existing key keeps its place. |
| Dicts.MapValues | octo_api/products.py:138-139 | Mapping a dict's values keeps its keys and their order, and maps each key to f of its old value. |
| Dicts.Take | octo_api/products.py:135 | The first n keys of a dict, with their values, form a well-formed dict. |
| Dicts.TakeAll | octo_api/products.py:135 | Taking all the keys gives the whole dict. |
| Dicts.TakeNone | octo_api/products.py:133 | Taking no keys gives the empty dict. |
| Dicts.TakeNext | octo_api/products.py:135 | Iterating one more key adds one new key at the end, with its value. |
| Dicts.SetItemTwice | octo_api/products.py:139 | Setting the same key twice leaves only the second value. |
| Dicts.MapValuesSetItem | octo_api/products.py:138-139 | Mapping the values commutes with setting one entry. |
| Builtins.NatToDecimal | octo_api/utils.py:115 | `str` of a natural number is a non-empty string of ASCII digits with no leading zero. |
| Builtins.DecimalRoundTrip | octo_api/utils.py:115-117 | Reading back the decimal digits of n gives n. |
| Builtins.IntToDecimal | octo_api/utils.py:115 | Defines `str` of an integer: a minus sign for a negative number, then the decimal digits of its magnitude. |
| Builtins.ParseInt | octo_api/utils.py:117 | `int` of a string succeeds exactly on an optional sign followed by digits. Its value is the digits' value, negated after `-`. Anything else raises `ValueError`. |
| Builtins.IntRoundTrip | octo_api/utils.py:115-117 | `int(str(i)) == i` for every integer i. |
| Builtins.Str | octo_api/utils.py:115 | `str` of a string is that string. `str` of an integer is its canonical decimal text, which reads back as that integer. Booleans give `True`/`False` and `null` gives `None`. |
| Builtins.Int | octo_api/utils.py:117 | `int` of an integer is itself and `int` of a bool is 0 or 1. `int` of a string parses it, and `int(None)` raises `TypeError`. |
| Utils.ZuluToOffset | octo_api/utils.py:46 | Defines `.replace("Z", "+00:00")`: each `Z` becomes `+00:00` and every other character is copied, in order. |
| Utils.ZuluToOffsetConcat | octo_api/utils.py:46 | The `Z` rewrite acts on each part of a string independently. |
| Utils.ZuluToOffsetHasNoZ | octo_api/utils.py:46 | After the rewrite the string contains no `Z`. |
| Utils.ZuluToOffsetWithoutZ | octo_api/utils.py:46 | A string without `Z` is passed on unchanged. |
| Utils.ZuluToOffsetIdempotent | octo_api/utils.py:46 | Rewriting twice gives the same string as rewriting once. |
| Utils.ZuluToOffsetLength | octo_api/utils.py:46 | The rewritten string is five characters longer per `Z`. Its length only: which characters it holds follows from ZuluToOffsetConcat and ZuluToOffsetWithoutZ. |
| Utils.FromIsoZulu | octo_api/utils.py:30-47 | `None` gives `None` and a `datetime` is returned unchanged. A string is parsed after every `Z` is replaced by `+00:00`; a string without `Z` is parsed as it is; parser failure is `ValueError`. |
| Utils.ParseRewritten | octo_api/utils.py:45-47 | Defines the handoff to the parser: a parsed `datetime` is returned, and a parser failure is `ValueError`. |
| Utils.ZuluMeansUtc | octo_api/utils.py:35-47 | A timestamp with `Z` at some position converts to the same result as one with `+00:00` at that position. |
| Utils.DecodeRateType | octo_api/utils.py:50-58 | `RateType(s)` gives the member whose value is s. If no member has that value, it raises `ValueError`. |
| Utils.RateType.Value | octo_api/utils.py:55-58 | Defines the wire string of each rate type: `standing-charges`, `standard-unit-rates`, `day-unit-rates`, `night-unit-rates`. |
| Utils.RateTypeValueInjective | octo_api/utils.py:55-58 | The four wire strings are distinct. |
| Utils.RateTypeRoundTrip | octo_api/utils.py:50-58 | Decoding a member's wire string gives that member. |
| Utils.Region.Code | octo_api/utils.py:66-80 | Defines the code of each of the 14 members, `_A` for `Eastern` to `_P` for `NorthScotland`. |
| Utils.NorthWales | octo_api/utils.py:70 | Defines the alias: `NorthWales` is the member `Merseyside`, so it has code `_D`. |
| Utils.Members | octo_api/utils.py:61-80 | The enumeration has 14 distinct members in declaration order; the alias `NorthWales` adds none. |
| Utils.MembersComplete | octo_api/utils.py:66-80 | Every region, `NorthWales` included, is one of the 14 members. |
| Utils.DecodeRegion | octo_api/utils.py:61-80 | `Region(s)` gives the member whose code is s. If no member has that code, it raises `ValueError`. |
| Utils.RegionCodeInjective | octo_api/utils.py:66-80 | No two members share a code. |
| Utils.RegionRoundTrip | octo_api/utils.py:61-80 | Decoding a member's code gives that member. |
| Utils.RegionCodes | octo_api/utils.py:66-80 | The i-th member has the i-th of `_A`…`_P`, and exactly those 14 codes decode. `_I` and `_O` fail. `_D` gives `Merseyside`, the same member as `NorthWales`, and `_C` gives `London`. |
| Utils.RegionOf | octo_api/utils.py:116 | `Region(x)` on a raw JSON value decodes a string and raises `ValueError` for anything else. |
| Utils.FromDict | octo_api/utils.py:112-118 | Succeeds exactly when all three keys are present, `gsp` decodes and `profile_class` converts. Then `mpan` is `str` of its value, `gsp` the decoded region and `profile_class` `int` of its value. Errors follow the argument order: `KeyError('mpan')`, then `KeyError('gsp')`, then the region's `ValueError`, then `KeyError('profile_class')`, then `int`'s own error. |
| Utils.FromDictRoundTrip | octo_api/utils.py:112-118 | Decoding a record in the form the meter-point endpoint sends gives that record back. |
| Utils.FromDictMpanAsNumber | octo_api/utils.py:115 | An `mpan` sent as a number decodes to the same record as one sent as its decimal text. |
| Utils.FromDictProfileClassAsText | octo_api/utils.py:117 | A `profile_class` sent as decimal text decodes to the same record as one sent as a number. |
| Utils.FromDictExample | octo_api/utils.py:113-118 | `{"gsp": "_H", "mpan": "2000024512368", "profile_class": 1}` decodes to `MeterPointDetails("2000024512368", Southern, 1)`. |

## Left out

- The paginated response class `octo_api.pagination.PaginatedResponse` is not part of this model. Its source is not among the modelled files, and rebuilding it from its tests would be guesswork.
- The attrs record classes `BaseProduct`, `Product`, `DetailedProduct`, `Tariff` and `RateInfo` (octo_api/products.py:62-241) are not modelled. They are declarative field lists wired to converters by library decorators, and their float fields are out of scope.
- Products.ParseTariffs: `Tariff(**raw)` is a total function parameter. The `TypeError` or `ValueError` it raises on a missing or non-numeric field is not modelled.
- Products.ParseTariffs: the input dict is a value in the model, so "the input is left unchanged" holds by construction. Aliasing between the input and the result is not modelled; in the source every inner dict of the result is a fresh `{}`.
- `RegionalTariffs.__str__` (octo_api/products.py:253-254) is not modelled. It is the plain dict repr, built from the float-bearing `Tariff` reprs.
- Products.RegionalTariffs.Repr: the class name is fixed as `RegionalTariffs`. A subclass would put its own name there.
- tests/test_products.py:113 expects `str(...)` to list the keys, and line 127 expects `repr(...)` to equal the plain dict's `str`. octo_api/products.py:253-257 does the opposite: `__str__` is the dict repr and `__repr__` lists the keys. The model follows the code.
- `datetime.fromisoformat` itself, the `bst`/`gmt`/`utc` timezone constants and the Python 3.6 backport patch (octo_api/utils.py:13-16,121-127) are library and time handling. The parser is a parameter of `FromIsoZulu`.
- Utils.FromIsoZulu: arguments other than `None`, a `datetime` or a string are not modelled; the source would raise `AttributeError` on `.replace`.
- Builtins.ParseInt: accepts only an optional sign followed by ASCII digits. Python's `int()` also accepts surrounding whitespace, underscores between digits and non-ASCII digits. The model has no digit limit: current Python refuses to convert between `int` and `str` beyond 4300 digits (`ValueError`), where ParseInt and Str still succeed.
- Builtins.Json: JSON floats, lists and objects are not modelled, so the truncation of `int(2.7)` and the `str` of such values are not covered.
- Products.LinksConverter: `list(...)` returns a new list object. The model is on values, so only the element sequence is captured, not the new list's identity.
- Utils.DecodeRegion: a `StrEnum` member is also a `str` equal to its code. The model keeps a region and its code apart, linked by `Code()`. Lookup by member name (`Region["NorthWales"]`) is not modelled.
- The HTTP test-server fixtures in tests/conftest.py and the API verbs (`get_products`, `get_grid_supply_point`, ...) are outside the modelled files.
