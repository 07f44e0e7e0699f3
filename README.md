# Spaceship generator, modelled in Dafny

The spaceship generator reads a catalogue of spaceship parts from a text file,
one part per line, and sorts each line into one of six lists: engines,
fuselages, cabins, wings, armour and weapons. A line goes to the first category,
in that order, whose keyword (`engine`, `fuselage`, `cabin`, `wings`, `armor`,
`weapon`) occurs anywhere in it; a line with none of them is dropped. Each round
shuffles every list, then builds a spaceship from the front engine, fuselage,
cabin and armour ("N/A" when a list is empty), two independently drawn wings
(either may be absent), and a prefix of up to four weapons. The ship is then
printed as a labelled block of text.

The model has four modules:

- `Optional` (`optional.dfy`): `std::optional` with `value_or`.
- `Strings` (`strings.dfy`): `std::string::rfind` and the "found" test built on
  it, the decimal text an ostream writes for a `size_t`, and the split of
  printed text into lines. This module is what the properties of the printed
  text are stated with.
- `Parts` (`parts.dfy`): the keyword classification as a priority table,
  the lists a load produces (`Bucket`, `Dropped`), `GetFront`, the
  Fisher–Yates loop behind `std::shuffle`, and the class `SpaceshipParts`.
  Its six fields are the six lists. `AddLine`, `ReadFromFile` and `Shuffle`
  update those fields in place. The getters are functions that read them.
- `Ship` (`ship.dfy`): the class `Spaceship`, with seven fields that
  `Generate` overwrites, and `operator<<`. The stream output is the function
  `Render` together with the method `WriteTo`, which appends to a stream's
  text with the same loop over the weapons. `RenderLines` proves what the
  printed text contains, line by line.

Random draws are parameters bounded the way the source's distributions bound
them. The file is its sequence of lines, or `None` when it cannot be opened.

## Model

| member | source | states |
|---|---|---|
| Optional.Option.GetOr | src/main.cpp:71 | `value_or`: the held value when there is one, otherwise the given default |
| Strings.RFindFromLast | src/main.cpp:37-48 | the backwards search answers with the last start position at or before its bound where the keyword occurs, and with npos only when there is none |
| Strings.RFindLast | src/main.cpp:37-48 | `rfind` finds an occurrence with none after it, and gives npos exactly when the keyword occurs nowhere in the line |
| Strings.MissingCharNotContained | src/main.cpp:37-48 | a keyword with a character the line lacks is not found in it |
| Strings.OccurrenceContained | src/main.cpp:37-48 | a keyword occurring at any position makes the `rfind` test succeed, so the keyword may sit anywhere in the line |
| Strings.NatToString | src/main.cpp:157 | the count is written as decimal digits with no leading zero |
| Strings.NatToStringRoundTrip | src/main.cpp:157 | reading the written digits back gives the weapon count |
| Strings.SplitLines | src/main.cpp:151-174 | the printed text splits into at least one line and no line holds a line break |
| Strings.SplitJoin | src/main.cpp:151-174 | splitting printed text into lines loses nothing: rejoining the lines with line breaks gives the text back |
| Strings.SplitAppendPlain | src/main.cpp:153-157 | text without a line break continues the current last line |
| Strings.SplitAppendLine | src/main.cpp:153-157 | a line break followed by single-line text adds exactly one line |
| Parts.ClassifyCascade | src/main.cpp:37-48 | `Classify`, the lookup in the priority table, equals the source's if/else-if chain of `rfind` tests: engine, fuselage, cabin, wings, armor, weapon, else dropped |
| Parts.FirstMatchIsFirst | src/main.cpp:37-48 | over any table listing each category once, entry k is chosen exactly when its keyword occurs and no earlier entry's keyword does |
| Parts.FirstMatchNone | src/main.cpp:37-48 | a lookup finds nothing exactly when no entry's keyword occurs |
| Parts.ClassifyFirstMatching | src/main.cpp:37-48 | both directions: a line lands in category c exactly when it contains c's keyword and no keyword of higher priority |
| Parts.ClassifyNone | src/main.cpp:37-48 | both directions: a line is dropped exactly when it contains none of the six keywords |
| Parts.EngineTakesPriority | src/main.cpp:37-38 | a line mentioning an engine goes to the engine list and to no other list, whatever else it mentions |
| Parts.ArmorNotInArmour | src/main.cpp:45 | the keyword "armor" does not occur in "armour" |
| Parts.ArmourSpellingDropped | src/main.cpp:37-48 | a line reading "armour" is dropped, since the armour list is keyed on "armor" |
| Parts.BucketClassified | src/main.cpp:35-49 | each list built by a load holds only lines of the file that classify into that list, and the dropped lines are lines that classify nowhere |
| Parts.BucketHasKeyword | src/main.cpp:35-49 | every line in a category's list contains that category's keyword |
| Parts.LoadKeepsEveryCopy | src/main.cpp:35-49 | every copy of a line in the file reaches the list of its own category, or the dropped lines, so no line is lost or duplicated |
| Parts.LoadCounts | src/main.cpp:35-49 | the six lists and the dropped lines together are exactly as long as the file |
| Parts.CollectedAppend | src/main.cpp:35-49 | going through one more line appends it to its own category's list and appends nothing to the others, so each list grows as its old contents followed by the matching lines in file order |
| Parts.UnmatchedLineDropped | src/main.cpp:37-48 | a line with no keyword leaves all six lists as they were and only joins the dropped lines |
| Parts.GetFront | src/main.cpp:19-23 | absent exactly for an empty list, otherwise the first element |
| Parts.ShuffleList | src/main.cpp:61-66 | given draws with draw i at most i, the swap loop returns a permutation of the list: same length, same multiset |
| Parts.PermutationKeepsCategory | src/main.cpp:59-67 | a permutation of a list whose lines all belong to one category still holds only lines of that category |
| Parts.SpaceshipParts.constructor | src/main.cpp:117-122 | a new catalogue has six empty lists |
| Parts.SpaceshipParts.AddLine | src/main.cpp:37-48 | the line is appended to the list of its category and every other list is unchanged; a dropped line changes no list |
| Parts.SpaceshipParts.ReadFromFile | src/main.cpp:28-57 | for a file whose lines hold no line break, as `std::getline` yields them: if the file opens, each list becomes its old contents followed by the file's lines of that category, in file order; if not, no list changes; the result tells which message is printed; lists keep only single lines of their own category |
| Parts.SpaceshipParts.Shuffle | src/main.cpp:59-67 | each of the six lists keeps its length and its multiset of lines, so nothing moves between lists |
| Parts.SpaceshipParts.GetEngine | src/main.cpp:69-72 | the first engine, or exactly "N/A" when there is none; the answer is an engine line and holds no line break |
| Parts.SpaceshipParts.GetFuselage | src/main.cpp:74-77 | the first fuselage, or exactly "N/A" when there is none |
| Parts.SpaceshipParts.GetCabin | src/main.cpp:79-82 | the first cabin, or exactly "N/A" when there is none |
| Parts.SpaceshipParts.GetArmour | src/main.cpp:99-102 | the first armour, or exactly "N/A" when there is none |
| Parts.SpaceshipParts.GetWing | src/main.cpp:84-97 | for a draw in [0, size]: absent exactly when the draw equals the size, otherwise the wing at that index; always absent when there are no wings |
| Parts.SpaceshipParts.GetWeapons | src/main.cpp:104-111 | for a draw in [0, 4]: the prefix of the weapons of length min(draw, size), so at most four and empty when there are none |
| Ship.Spaceship.constructor | src/main.cpp:141-148 | a new ship has empty parts, no wings and no weapons |
| Ship.Spaceship.Generate | src/main.cpp:128-137 | each field becomes the matching pick from the catalogue, with a separate draw for each wing; at most four weapons, all of them weapon lines; from a valid catalogue every field is a single line, so `RenderLines` applies to every generated ship |
| Ship.Spaceship.WriteTo | src/main.cpp:151-174 | the stream's text afterwards is its old text followed by the ship's rendering `Render` (`Header` and the weapons block) |
| Ship.WeaponLinesSnoc | src/main.cpp:163-166 | each pass of the weapon loop appends that weapon's line |
| Ship.WeaponLinesSplit | src/main.cpp:159-167 | after the line break the weapons print as one indented line each, in order |
| Ship.HeaderLines | src/main.cpp:153-157 | `Header`, line by line: the banner, one labelled line per part, "N/A" for an absent wing, and the weapons header carrying the weapon count |
| Ship.RenderLines | src/main.cpp:151-174 | `Render`, line by line: banner, labelled parts, "N/A" for an absent wing, "Weapons (n): " with n the number of weapons, followed by "N/A" when there are none and otherwise one indented line per weapon in order |

## Left out

- File opening and `std::getline` are not modelled. `ReadFromFile` receives the file as its sequence of lines, or `None` when it cannot be opened.
- The two console messages are not modelled. The boolean that `ReadFromFile` returns says which one is printed.
- `std::random_device`, `std::mt19937` and `std::uniform_int_distribution` are not modelled. Their draws are parameters bounded as the distributions bound them: [0, size] for a wing and [0, 4] for the weapon count. Uniformity and independence are not stated.
- Parts.SpaceshipParts.Shuffle: promises only a permutation of each list, not which permutation the generator picks. `ShuffleList` takes the swap positions as given draws, in the forward Fisher–Yates order that libstdc++ uses. How libstdc++ turns generator output into those draws is not modelled. Neither is its shortcut of drawing two positions from one number.
- The fixed four-round loop in `main` and its hard-coded file name are not modelled, since they are driver code.
- The `collection` concept that constrains `GetFront` has no behaviour and is not modelled.
- Writing to `std::ostream` and `std::cout` is modelled as appending to a string (`WriteTo`) whose value is `Render`. Stream errors and flushing are not modelled.
- Ship.Spaceship.Header: writes each label's leading line break as a piece of its own. The text is the same as the source's string literals.
- `AddLine` is the body of the `getline` loop, written as a method of its own. `ReadFromFile` calls it once per line.
- Strings are sequences of characters. Byte encodings and `std::size_t` overflow are not modelled. The part lists are far too small for overflow to matter.
- Ship.RenderLines: requires that no field holds a line break. `Generate` ensures this for every ship built from a valid catalogue. A valid catalogue holds only the single lines that `std::getline` yields, which is what `ReadFromFile` requires of its input.
