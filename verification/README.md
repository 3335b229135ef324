# Length unit converter — conversion engine

A model of the conversion core of a single-screen length converter. The user
types a magnitude and picks a source unit and a target unit from meters,
kilometers, feet, yards and miles. The screen then shows the converted value
followed by the target unit's full name.

The model has five modules:

- `Units` (`units.dfy`): the `Units` enum with its raw codes (`m`, `km`,
  `ft`, `yd`, `mi`), the full unit names used as suffixes, `allValues`, and
  the failable `init?(rawValue:)` that a `String`-backed Swift enum gets from
  the compiler. That initializer is modelled as a walk over `allValues`.
- `Reference` (`reference.dfy`): an independent exact table. Every unit is
  measured in metres using the 1959 international yard and pound agreement
  (1 yd = 0.9144 m, 1 ft = 0.3048 m, 1 mi = 1609.344 m). Every pairwise
  factor is a quotient of two of these values, so the table is consistent
  by construction (`ExactFactorComposes`).
- `Converters` (`converters.dfy`): the five free functions `convertMeters` …
  `convertMiles`. Each has the same branches and literal factors as the
  source. A result is a `Reading(magnitude, word)` rather than a formatted
  string. One lemma per converter compares its four hand-typed factors
  with the exact table. The predicate `ExactLiteral` lists the pairs where
  the typed factor equals the exact one. Every other pair is within a
  relative error of 2.1e-7.
- `ContentView` (`content_view.dfy`): the view state (`Screen`) and the
  `convertedValue` dispatch. The dispatch is modelled twice. Once as written,
  where the meters case calls `convertMiles`. Once corrected, where the
  meters case calls `convertMeters`. The rest of the model uses the
  corrected one.
- `Consistency` (`consistency.dfy`): properties of the whole factor table
  seen through the corrected dispatch. It covers linearity, which factors are
  exact, how exact factors chain, round-trip drift and drift through a third
  unit.

Magnitudes are Dafny `real`s. Every literal in the source is a finite
decimal, so every factor relationship is checked exactly in rational
arithmetic.

A 1e-9 round-trip tolerance does not hold for the literals as typed. Miles
paired with meters, feet or yards drifts by up to 2.08e-7, because
`0.0001893939` is the feet-to-miles factor against an exact value of 1/5280.
`Consistency.NanoRoundTripIff` proves exactly which pairs meet 1e-9, and
`Consistency.RoundTripBound` proves the 2.1e-7 bound that holds for all of
them.

Everything in `Consistency` is about the corrected dispatch, that is, each
source unit going through its own converter. On the screen as written, a
meters source goes through `convertMiles`, so for example meters to
kilometers and back shows 1609.344·v; the `ContentView` lemmas cover that
case.

## Model

| member | source | states |
|---|---|---|
| `Units.RawValue` | unit-converter/ContentView.swift:10-15 | the codes are `m`, `km`, `ft`, `yd`, `mi` as declared; each is one or two letters long and starts with the initial of the unit's full name |
| `Units.Name` | unit-converter/ContentView.swift:85-158 | the suffix words are `meters`, `kilometers`, `feet`, `yards`, `miles` as the converters append them; each is at least four letters long, so longer than any raw code |
| `Units.AllValues` | unit-converter/ContentView.swift:10-17 | the list has five entries, contains every case, and entry i is the i-th declared case, so each case appears exactly once and in declaration order |
| `Units.RawValuesDistinct` | unit-converter/ContentView.swift:10-15 | two cases have the same raw code if and only if they are the same case |
| `Units.NamesDistinct` | unit-converter/ContentView.swift:85-158 | two cases have the same suffix word if and only if they are the same case, and no suffix word equals any raw code, so a result is labelled with the full name and not the code |
| `Units.FromRawValue` | unit-converter/ContentView.swift:10-15 | models the failable `init?(rawValue:)` the compiler generates for `enum Units: String`; the file itself never calls it, since the pickers use the cases directly. Looking up a code returns `Some(u)` exactly when `u`'s raw code is that code; it returns `None` exactly when no case has that code |
| `Converters.ConvertMeters` | unit-converter/ContentView.swift:85-98 | the word is the target's full name; converting to meters returns the input magnitude unchanged |
| `Converters.ConvertKilometers` | unit-converter/ContentView.swift:100-113 | the word is the target's full name; converting to kilometers returns the input magnitude unchanged |
| `Converters.ConvertFeet` | unit-converter/ContentView.swift:115-128 | the word is the target's full name; converting to feet returns the input magnitude unchanged |
| `Converters.ConvertYards` | unit-converter/ContentView.swift:130-143 | the word is the target's full name; converting to yards returns the input magnitude unchanged |
| `Converters.ConvertMiles` | unit-converter/ContentView.swift:145-158 | the word is the target's full name; converting to miles returns the input magnitude unchanged |
| `Converters.ConvertMetersFaithful` | unit-converter/ContentView.swift:85-98 | against the exact table, meters→kilometers (0.001) is exact; the ft, yd and mi factors are within 2.1e-7 relative error |
| `Converters.ConvertKilometersFaithful` | unit-converter/ContentView.swift:100-113 | kilometers→meters (1000) is exact; the ft, yd and mi factors are within 2.1e-7 relative error |
| `Converters.ConvertFeetFaithful` | unit-converter/ContentView.swift:115-128 | feet→meters (0.3048) and feet→kilometers (0.0003048) are exact; the yd and mi factors are within 2.1e-7 |
| `Converters.ConvertYardsFaithful` | unit-converter/ContentView.swift:130-143 | yards→meters (0.9144), →kilometers (0.0009144) and →feet (3) are exact; the mi factor is within 2.1e-7 |
| `Converters.ConvertMilesFaithful` | unit-converter/ContentView.swift:145-158 | every miles factor (1609.344, 1.609344, 5280, 1760) equals the exact one |
| `ContentView.ConvertedValueAsWritten` | unit-converter/ContentView.swift:26-39 | the shown word names the target unit; a same-unit conversion shows the input unchanged for every source except meters |
| `ContentView.ConvertedValue` | unit-converter/ContentView.swift:26-39 | with each source sent to its own converter, the word names the target and every same-unit conversion shows the input unchanged |
| `ContentView.ConvertedValueFaithful` | unit-converter/ContentView.swift:26-39 | every corrected displayed value agrees with the exact table: exactly on the exact pairs, within 2.1e-7 on the rest |
| `ContentView.AsWrittenDiffersOnlyOnMeters` | unit-converter/ContentView.swift:26-39 | kilometers, feet, yards and miles sources reach the converter of their own name; a meters source reaches `convertMiles` |
| `ContentView.AsWrittenIdentityIff` | unit-converter/ContentView.swift:28-29 | as written, converting a unit to itself returns `v` if and only if the unit is not meters or `v` is 0; meters→meters shows `v * 1609.344` meters |
| `ContentView.OneMeterToMeters` | unit-converter/ContentView.swift:28-29 | 1 meter converted to meters shows 1609.344 meters as written and 1 meter when corrected |
| `ContentView.DefaultScreenShowsZeroMeters` | unit-converter/ContentView.swift:21-23 | the initial state (0, feet → meters) shows 0 meters under either dispatch |
| `Consistency.Linear` | unit-converter/ContentView.swift:85-158 | through each source's own converter, every conversion multiplies the input by a positive constant that depends only on the unit pair |
| `Consistency.Scale` | unit-converter/ContentView.swift:85-158 | through each source's own converter, scaling the input scales the output; zero maps to zero; negation commutes with conversion; the sign is kept, so negatives are not clamped |
| `Consistency.ExactLiteralIff` | unit-converter/ContentView.swift:85-158 | a typed factor equals the exact factor if and only if the pair is listed in `ExactLiteral` |
| `Consistency.ExactChain` | unit-converter/ContentView.swift:85-158 | if both legs of a chain are exact, then the direct factor is exact and equals the product of the legs |
| `Consistency.TypedChainsAgree` | unit-converter/ContentView.swift:90-154 | 3·0.3048 = 0.9144; 5280·0.3048 = 1760·0.9144 = 1609.344; 0.001·1000 = 1; 0.3048·0.001 = 0.0003048 |
| `Consistency.FactorRoundTrip` | unit-converter/ContentView.swift:85-158 | for every pair of units, the product of the two typed factors is within 2.1e-7 of 1 |
| `Consistency.RoundTripBound` | unit-converter/ContentView.swift:85-158 | through each source's own converter, converting any value there and back returns it within a relative error of 2.1e-7, for every pair of units |
| `Consistency.RoundTripExactIff` | unit-converter/ContentView.swift:85-158 | a there-and-back factor product is exactly 1 if and only if the two units are equal or are meters and kilometers |
| `Consistency.FeetYardsRoundTrip` | unit-converter/ContentView.swift:124-137 | through each source's own converter, feet→yards→feet returns exactly 0.9999999999·v, so it is within 1e-10 of v and differs from v whenever v is not 0 |
| `Consistency.NanoRoundTripIff` | unit-converter/ContentView.swift:85-158 | through each source's own converter, a round trip is within 1e-9 of the input if and only if the pair does not put miles with meters, feet or yards |
| `Consistency.FactorComposition` | unit-converter/ContentView.swift:85-158 | for any three units, the product of the two leg factors is within 2.3e-7 of the direct factor |
| `Consistency.CompositionBound` | unit-converter/ContentView.swift:85-158 | through each source's own converter, converting any value through an intermediate unit agrees with the direct conversion within a relative error of 2.3e-7 |

## Left out

- The SwiftUI `body`: the navigation view, the form, the text-field binding, the segmented pickers, keyboard focus and the toolbar. These are interface plumbing. `Screen` stands in for the three `@State` values they edit.
- The preview provider: this is design-time scaffolding only.
- `Double` arithmetic and string interpolation. Magnitudes are exact reals, so IEEE-754 rounding, NaN and infinities are not modelled. The displayed string `"\(value) word"` is modelled as the pair `Reading(magnitude, word)`.
- `rawValue.uppercased()` in the picker labels: this is display only.

## Findings

| source | as written | input that shows it | evidently intended | confidence | as-written member | corrected member |
|---|---|---|---|---|---|---|
| unit-converter/ContentView.swift:29 | the `.meters` case of `convertedValue` returns `convertMiles(initialValue, to: convertedUnit)` | 1 meter to meters shows `1609.344 meters` (and 1 meter to feet shows a magnitude of 5280, printed `5280.0 feet`) | `convertMeters(initialValue, to: convertedUnit)`, which the other four cases follow | high; not executed | `ContentView.ConvertedValueAsWritten`, shown by `ContentView.AsWrittenIdentityIff` and `ContentView.OneMeterToMeters` | `ContentView.ConvertedValue`, with identity in its contract and agreement with the exact table in `ContentView.ConvertedValueFaithful` |
