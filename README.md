# mckit core in Dafny

This project models the core of mckit, a Python toolkit for MCNP models. It
covers seven pieces of the toolkit:

- **Surface factory and de-duplication** (`surface.dfy`, module `Surfaces`).
  `create_surface` turns a surface designator (a kind word and its
  parameters) into a plane, sphere, cylinder, cone, general quadric or
  torus. It may also return no surface or raise an exception. The per-variant
  `equals`, and `create_replace_dictionary`, build the replace map of
  coincident surfaces and grow the caller's set of unique surfaces in
  place. Surfaces compare by identity, so they are a class.
- **Irradiation profile** (`activation.dfy`, module `Activation`). The
  `IrradiationProfile` object keeps three parallel lists (flux, duration in
  seconds, output record) and updates them in place. `irradiate` and `relax`
  append a step. `insert_record` splits the step that contains a given time.
  `measure_times` gives the output times. `adjust_time` picks the display
  unit. `output` writes the FLUX and TIME lines, with fluxes normalised by
  `nominal / norm`.
- **MCNP section parser** (`sections.dfy`, module `Sections`). It covers
  card classification by label (`Kind.from_card_text`), comment-line and
  comment-text recognition, and the card generators `split_to_cards` and
  `clean_mcnp_cards`. It also covers `parse_sections`: from the
  blank-line-separated sections it finds the optional message block, the
  title, the cells, surfaces and data, or the data of a `continue` run, and
  the remainder. `InputSections` carries its validator.
- **The `split` command's `distribute_cards`** (`split.dfy`, module
  `SplitCommand`). It routes data cards to the materials, transformations,
  sdef and other lists. Each card is preceded by the comment card that came
  just before it.
- **Named-item index** (`index.dfy`, module `NumberedIndex`). This is an
  `Index` dictionary with a key-taking default factory, and
  `IndexOfNamed.from_iterable`. It handles duplicate names in three ways:
  raise on any duplicate, ignore equal objects, or count duplicates in a
  `StatisticsCollector`.
- **Material parser actions** (`material.dfy`, module `MaterialParser`).
  These are the `NAME` token value, the `option` action, the left-recursive
  list rules, and `build_composition`. The last splits fractions by sign into
  atomic and (negated) weight fractions and assembles the composition
  options.
- **Precision utilities** (`precision.dfy`, module `Precision`).
  `significant_digits` is a bisection for the least number of decimal places
  whose rounding keeps the relative error within a tolerance. There are also
  its element-wise versions `significant_array` and `round_array`.

`text.dfy` (module `Text`) holds the string primitives the source takes from
Python's `str`: ASCII case mapping, `rstrip`, the first word and decimal
digits. `wrappers.dfy` holds `Option` and `Result`. Exceptions the source
raises are the `Err` side of a `Result`. The exception kinds are a datatype
per module, for example `ValueError`, `KeyError`, `IndexError` and
`ZeroDivision`.

## Model

| member | source | states |
|---|---|---|
| Surfaces.AxisOf | mckit/surface.py:43-49 | The upper-cased kind names an axis exactly when its last letter is X, Y or Z. |
| Surfaces.OffAxisPoint | mckit/surface.py:75-79 | The axis point of a `C/X`, `C/Y`, `C/Z` cylinder, computed from the complement of the axis vector, is the two parameters placed in the two coordinates off the axis. |
| Surfaces.KindCaseInsensitive | mckit/surface.py:43 | The kind word's letter case never changes the surface made or the exception raised. |
| Surfaces.AxisPlane | mckit/surface.py:51-53 | `PX d`, `PY d`, `PZ d` give the plane with the axis as its unit normal and offset `-d`. |
| Surfaces.GeneralPlane | mckit/surface.py:54-55 | `P a b c d` gives the plane with normal `(a, b, c)` and offset `-d`; fewer than four parameters raise IndexError. |
| Surfaces.SqIsDiagonalQuadric | mckit/surface.py:57-62 | `SQ`, in any case, is matched before the sphere forms. Ten parameters give a quadric with a diagonal matrix; any other count raises ValueError. |
| Surfaces.GqRoundTrip | mckit/surface.py:95-99 | The `GQ` matrix is symmetric. Reading its ten coefficients back as the card printer does (the diagonal, then the off-diagonal pairs summed) gives the card's parameters. |
| Surfaces.ConeCardSheet | mckit/surface.py:85-93 | A cone card gives a cone. Its sheet is 0 for an even number of parameters, otherwise the last parameter truncated toward zero. |
| Surfaces.ByPointsTable | mckit/surface.py:105-125 | The by-points forms: one point gives a plane. Two points at close heights give the plane halfway between. Two points at close radii give a cylinder with the mean radius. Points on opposite sheets raise ValueError. Three points raise NotImplementedError. Any other count gives no surface. |
| Surfaces.ZeroHeightsDivideByZero | mckit/surface.py:110-122 | As written, two points both at height 0 fail the strict closeness test and fall into the cone branch, which divides by zero. The corrected factory gives the plane `h = 0`. |
| Surfaces.ApexFirstDividesByZero | mckit/surface.py:119-121 | As written, a first point on the axis is the apex `h0`, so the sheet `(h1 - h0) / abs(h1 - h0)` divides by zero. The corrected factory gives the cone. |
| Surfaces.EqualHeightsArePlane | mckit/surface.py:110-112 | Corrected: two points at the same height always give the plane at that height, on every axis and at every tolerance. |
| Surfaces.ApexAtFirstPoint | mckit/surface.py:116-122 | Corrected: a first point on the axis is the cone's apex. Its squared tangent is the slope to the second point, and its sheet is the side of the second point. |
| Surfaces.ConeWithApexFirst | mckit/surface.py:119-122 | The cone branch with the first point on the axis puts the apex at the first height, with the second point's slope and side. |
| Surfaces.Surface.constructor | mckit/surface.py:178-179 | A new surface object holds the shape it was built from. |
| Surfaces.CreateSurface | mckit/surface.py:24-125 | `create_surface` returns a fresh surface of exactly the designated shape, None for an unrecognised by-points count, or the exception the factory raises. The by-points forms are the corrected ones of the first two Findings rows (`Surfaces.ByPoints`, not `Surfaces.ByPointsAsWritten`). |
| Surfaces.SurfaceEquals | mckit/surface.py:249-250 | The variants' `equals`: planes and spheres raise NotImplementedError before comparing anything; cylinders, cones, quadrics and tori (lines 372-374, 445-447, 530-532, 584-586) always answer 0. |
| Surfaces.FindMatch | mckit/surface.py:152-156 | The inner loop finds a unique surface with a nonzero sense and reports it with that sense. Otherwise every unique surface compared as 0, or some comparison raised that error. |
| Surfaces.SurfaceSet.constructor | mckit/surface.py:150 | A missing `unique` argument starts from an empty set. |
| Surfaces.Deduplicate | mckit/surface.py:149-159 | Every replaced surface maps to a unique surface, with the nonzero sense `equals` reports. Every other candidate is added to the unique set, and nothing else is added. A candidate that was not already unique is either replaced or added, never both. Kept candidates compare as 0 with the prior unique set and with each other. When `equals` raises on candidate `i` against a member of the set, that error is returned and the set holds exactly the prior members plus the candidates before `i` that were kept; every replacement made so far still carries its nonzero sense. |
| Surfaces.CreateReplaceDictionary | mckit/surface.py:128-159 | With the variants' own `equals` the replace map is always empty. The call raises NotImplementedError exactly when some plane or sphere is compared against a non-empty set: it is not the first candidate, or the caller's set was not empty. Then the caller's set holds its old members plus every candidate before the first such plane or sphere. On success the caller's set gains every candidate. |
| Surfaces.NothingReplaced | mckit/surface.py:157-158 | With an empty replace map every candidate joins the unique set. |
| Surfaces.KeptExactly | mckit/surface.py:151-158 | A candidate that was not already unique ends up either in the replace map or in the unique set, never both. |
| Activation.RecordText | mckit/activation.py:457-460 | No record is stored as the empty string, and only no record is. A given record is stored as its own text. |
| Activation.CumulativeIncreasing | mckit/activation.py:530 | With positive durations the running end times of the steps strictly increase. |
| Activation.BisectLeftFinds | mckit/activation.py:531 | The bisection of `searchsorted` (side left) on a sorted array returns the index that separates entries below `x` from entries at or above it. |
| Activation.SearchSortedSplits | mckit/activation.py:531 | On a sorted array, every entry before the found index is below `x` and every entry from it on is at least `x`. |
| Activation.RecordedTimesCount | mckit/activation.py:479-485 | `measure_times` yields one time per step with a non-empty record. |
| Activation.RecordedTimesIncreasing | mckit/activation.py:479-485 | With positive durations the output times strictly increase, are positive, and never exceed the total duration of the steps seen. |
| Activation.FirstUnitFromIsFirst | mckit/activation.py:511-514 | The scan stops at the first sort unit in which the time is at least one; every earlier unit gives less than one. |
| Activation.AdjustedTimeLargestUnit | mckit/activation.py:510-515 | The time comes back in the largest unit (years first) in which it is at least one. When no unit gives at least one, it comes back unchanged in seconds. |
| Activation.AdjustTime | mckit/activation.py:510-515 | The early-return loop of `adjust_time` computes the adjusted time. |
| Activation.SplitFlux | mckit/activation.py:532 | Inserting the step's flux in front of it repeats that flux and shifts the rest. |
| Activation.SplitDurations | mckit/activation.py:534-537 | The split step's two parts add up to its duration; the steps before and after are unchanged. |
| Activation.SplitKeepsTotal | mckit/activation.py:534-537 | Splitting a step leaves the total duration of the profile unchanged. |
| Activation.SplitBounds | mckit/activation.py:530-531 | The step `searchsorted` finds ends at or after the insertion time, and the step before it ends before that time. |
| Activation.SplitAtTime | mckit/activation.py:529-537 | After the split, the first part ends exactly at the insertion time. The second part is empty exactly when the time was a step end. Durations stay positive for a time strictly inside the step. |
| Activation.EndOfProfile | mckit/activation.py:529-537 | On a non-empty profile, the step lookup runs off the end exactly when the time is strictly past the total duration. A time exactly at the total lands on the last step, and its second part lasts zero. |
| Activation.OutputTimeLines | mckit/activation.py:563-569 | `output` writes exactly one TIME line per step, carrying that step's time, unit and record, in order. |
| Activation.OutputTimeLinesAdjusted | mckit/activation.py:567-568 | Each TIME line carries the step's duration in the unit `adjust_time` picks for it. |
| Activation.OutputFluxLast | mckit/activation.py:562-569 | The last FLUX line carries the last step's scaled flux. No FLUX line is written exactly when every scaled flux is zero. |
| Activation.OutputFluxChanges | mckit/activation.py:562-566 | A FLUX line is written only on a change: consecutive FLUX values differ, and the first is not zero. |
| Activation.OutputFluxValues | mckit/activation.py:563-566 | Every FLUX value is the scaled flux of some step. |
| Activation.NormFactor | mckit/activation.py:557-560 | With both fluxes set the factor times the norm flux is the nominal flux, and a zero norm divides by zero. Otherwise the factor is one. |
| Activation.IrradiationProfile.constructor | mckit/activation.py:435-439 | A new profile has the given norm flux and no steps. |
| Activation.IrradiationProfile.Irradiate | mckit/activation.py:441-469 | Unknown records, negative fluxes, non-positive durations and unknown units are rejected, in that order, and a rejected call changes nothing. Otherwise one step is appended to all three lists, and `nominal` sets the norm flux. The lists stay parallel and physical. |
| Activation.IrradiationProfile.IrradiateAsWritten | mckit/activation.py:465-466 | As written, an unknown unit raises KeyError after the flux is appended, leaving the lists out of step. |
| Activation.IrradiationProfile.Relax | mckit/activation.py:487-507 | Like `irradiate`, with zero flux, no flux check and the norm flux unchanged. |
| Activation.IrradiationProfile.RelaxAsWritten | mckit/activation.py:505-506 | As written, an unknown unit raises KeyError after the zero flux is appended. |
| Activation.IrradiationProfile.MeasureTimes | mckit/activation.py:471-485 | The loop yields the running time at the end of every recorded step, over the zipped durations and records. |
| Activation.IrradiationProfile.InsertRecord | mckit/activation.py:517-542 | An unknown unit raises KeyError. A time strictly past the profile's end raises IndexError. Both change nothing. Otherwise the containing step is split at that time, with its flux repeated and the new record in front. The norm flux is unchanged and the lists stay parallel. |
| Activation.IrradiationProfile.Output | mckit/activation.py:544-572 | The lines are those of the zipped steps, with the fluxes scaled by the normalisation factor. A zero norm flux with a nominal flux divides by zero. The ValueError from formatting an integer is not modelled (see Left out). |
| Activation.Min3 | mckit/activation.py:563 | `zip` stops at the shortest of the three lists. |
| Activation.ScaledLines | mckit/activation.py:561-569 | The loop of `output`, starting from a previous flux of zero, produces the reference lines. |
| Sections.SplitLines | mckit/parser/mcnp_section_parser.py:299 | `split('\n')` gives at least one line, and no line contains a newline. |
| Sections.SplitLinesJoin | mckit/parser/mcnp_section_parser.py:299 | Joining the lines with newlines gives the text back. |
| Sections.SplitTitle | mckit/parser/mcnp_section_parser.py:236 | Unpacking `split('\n', 1)` fails exactly when the section has no newline. Otherwise it gives the first line and the rest, around the first newline. |
| Sections.FirstNonComment | mckit/parser/mcnp_section_parser.py:299 | The scan stops at the first line that is not a comment line; all lines before it are comment lines. |
| Sections.CommentTextEveryLine | mckit/parser/mcnp_section_parser.py:295-302 | Without empty lines, a text with newlines is a comment text exactly when every line is a comment line. |
| Sections.BlankLineEndsCommentScan | mckit/parser/mcnp_section_parser.py:298-300 | The first non-comment line is returned as the scan's result. An empty line is falsy, so a comment line followed by an empty line makes any text a comment text. |
| Sections.KindByPrefixCases | mckit/parser/mcnp_section_parser.py:54-61 | The label's first characters decide MATERIAL and TRANSFORMATION exactly on their label forms, and raise IndexError exactly on an empty text or a label cut short. |
| Sections.KindByWord | mckit/parser/mcnp_section_parser.py:62-67 | The word checks give only SDEF, COMMENT or GENERIC. |
| Sections.FromCardText | mckit/parser/mcnp_section_parser.py:53-67 | Classification never gives CELL or SURFACE. It raises only IndexError. COMMENT means a comment text, and GENERIC means neither a comment nor an `sdef` label. |
| Sections.CardTextErrors | mckit/parser/mcnp_section_parser.py:53-67 | Classification raises exactly on a blank text or a label cut short before its digit. |
| Sections.MaterialKind | mckit/parser/mcnp_section_parser.py:54-55 | MATERIAL exactly when the text starts with `m` or `M` and a digit. |
| Sections.TransformationKind | mckit/parser/mcnp_section_parser.py:56-61 | TRANSFORMATION exactly for an optional `*`, `tr` in any case and a digit. |
| Sections.SdefKind | mckit/parser/mcnp_section_parser.py:62-64 | SDEF exactly when the first word is `sdef` in any case. |
| Sections.CommentLineKind | mckit/parser/mcnp_section_parser.py:65-66 | A one-line comment is a COMMENT card. |
| Sections.NewCard | mckit/parser/mcnp_section_parser.py:83-86 | A card keeps its text and an explicit kind. Without a kind it gets the kind of its label and fails exactly when classification raises. |
| Sections.NewInputSections | mckit/parser/mcnp_section_parser.py:132-138 | The validator rejects with ValueError exactly a continue run that has cells, has surfaces, or lacks data cards. Accepted sections keep their fields. |
| Sections.ContinueTitleCase | mckit/parser/mcnp_section_parser.py:284-285 | A title is a continue title exactly when its first eight characters spell `continue` in any case. |
| Sections.TitleIndex | mckit/parser/mcnp_section_parser.py:227-234 | The title section follows the message block exactly when the first section starts with `message:` in any case. |
| Sections.Remainder | mckit/parser/mcnp_section_parser.py:245-246 | There is a remainder exactly when sections are left past the cursor. |
| Sections.MatchCards | mckit/parser/mcnp_section_parser.py:163-175 | A match yields its stripped comment as a COMMENT card, then its stripped card, with the explicit kind or its label's kind. It raises exactly when a card without an explicit kind fails classification. |
| Sections.YieldMatch | mckit/parser/mcnp_section_parser.py:163-175 | The generator body yields the cards of one match. |
| Sections.ExplicitKindCards | mckit/parser/mcnp_section_parser.py:171-175 | With an explicit kind nothing is classified, so nothing raises, and every card is a comment or of that kind. |
| Sections.CardsOfCount | mckit/parser/mcnp_section_parser.py:161-175 | One card comes out per non-empty comment group and per non-empty card group. |
| Sections.CardsOfErrorStays | mckit/parser/mcnp_section_parser.py:161-175 | Once a match raises, the whole `list(...)` raises the same way. |
| Sections.SplitToCards | mckit/parser/mcnp_section_parser.py:161-175 | The generator's cards are those of the matches, in match order, or the first failure. |
| Sections.NonComment | mckit/parser/mcnp_section_parser.py:318-320 | The cards kept are exactly the input cards that are not comments. |
| Sections.Cleaned | mckit/parser/mcnp_section_parser.py:321-322 | Each card's text is cleaned and its kind kept, position by position. |
| Sections.CleanCards | mckit/parser/mcnp_section_parser.py:318-323 | `clean_mcnp_cards` yields every non-comment card, in order, cleaned and with its kind kept; no comment card comes out. |
| Sections.ParseSections | mckit/parser/mcnp_section_parser.py:219-278 | No title section raises IndexError; a title section without a newline, or with an empty title line, raises ValueError. On success the title and message are those found, the run is a continue run exactly when the title says so, and the continue or regular layout holds. Every failure is one of these causes or a failure of the run. |
| Sections.ContinueRun | mckit/parser/mcnp_section_parser.py:243-255 | A continue run gives the data cards of the title section and the remainder. It fails when classification raises or there are no data cards. |
| Sections.RegularRun | mckit/parser/mcnp_section_parser.py:256-276 | A regular run gives cells, surfaces, data and remainder from consecutive sections. It fails only when a data card's classification raises. |
| SplitCommand.DistributeCards | mckit/cli/commands/split.py:37-63 | Each output list is the reference routing: the cards of its kind in input order, each preceded by the comment that came just before it. |
| SplitCommand.RoutedKeepsCards | mckit/cli/commands/split.py:40-62 | Without its comments, each list holds exactly the cards of its kind, in input order. |
| SplitCommand.SelectedPartition | mckit/cli/commands/split.py:43-62 | Every non-comment card goes to its own list by first-match priority (material, transformation, sdef, other) and to no other. |
| SplitCommand.RoutedTotal | mckit/cli/commands/split.py:40-62 | The four lists together hold every non-comment card plus one comment for each card that followed a comment. |
| SplitCommand.TrailingCommentDropped | mckit/cli/commands/split.py:41-42 | A comment with no card after it is dropped. |
| SplitCommand.LastCommentWins | mckit/cli/commands/split.py:41-47 | Of two comments before a card, only the second is kept, in that card's list. |
| NumberedIndex.Index.constructor | mckit/utils/Index.py:23-27 | A new index is empty and keeps its default factory. |
| NumberedIndex.Index.Ignoring | mckit/utils/Index.py:45-51 | An ignoring index starts empty, with a factory that gives None for every key. |
| NumberedIndex.Index.Lookup | mckit/utils/Index.py:29-37 | A present key gives its item. A missing key gives the factory's value without being inserted. The lookup raises NotFound exactly when the key is missing and there is no factory. |
| NumberedIndex.Index.Put | mckit/utils/Index.py:112 | Binding a name replaces what it was bound to and changes nothing else. |
| NumberedIndex.IgnoringLookup | mckit/utils/Index.py:45-51 | Every lookup on an ignoring index succeeds, and a missing key gives None. |
| NumberedIndex.StatisticsCollector.constructor | mckit/utils/Index.py:87-88 | A new collector has no counts. |
| NumberedIndex.StatisticsCollector.Call | mckit/utils/Index.py:89-91 | A duplicate of a key bumps its count, which starts at 1, so the first duplicate records 2. |
| NumberedIndex.CollectedCounts | mckit/utils/Index.py:88-91 | From no counts, a key has a count exactly when it had duplicate events, and its count is the number of events plus one. |
| NumberedIndex.LastWinsBinds | mckit/utils/Index.py:107-115 | The index binds exactly the names of the items, each to the last item carrying it. |
| NumberedIndex.DuplicateNamesCount | mckit/utils/Index.py:107-113 | A name is reported as a duplicate once less often than it occurs among the items. |
| NumberedIndex.CollectorCountsItems | mckit/utils/Index.py:88-113 | With a fresh collector, every repeated name is counted once per item that carries it. |
| NumberedIndex.DuplicateNamesBound | mckit/utils/Index.py:109-111 | A name is reported as a duplicate only when it is already bound. |
| NumberedIndex.FromIterable | mckit/utils/Index.py:94-115 | On success a fresh index binds each name to its last item and keeps the factory. Without a strategy, or with the collector, the call always succeeds. Raise-on-duplicate fails exactly when a name repeats; ignore-equal fails exactly when a repeated name carries an unequal item; every failure is a Duplicated error. That error carries the name, the item already bound to it and the new item, at the first repetition (raise-on-duplicate) or the first unequal repetition (ignore-equal). The collector's counts are the old counts bumped once per duplicate event. |
| NumberedIndex.RepeatedName | mckit/utils/Index.py:78-79 | A name bound before its item arrives is a repeated name, which `raise_on_duplicate_strategy` rejects. |
| NumberedIndex.NoRepeatedName | mckit/utils/Index.py:78-79 | An item under a name not yet bound adds no repetition. |
| NumberedIndex.ConflictFound | mckit/utils/Index.py:82-84 | An unequal item under a bound name is a conflict, which `ignore_equal_objects_strategy` rejects. |
| NumberedIndex.NoConflictStep | mckit/utils/Index.py:82-84 | An item equal to the one bound to its name, or under a new name, adds no conflict. |
| MaterialParser.NameRoundTrip | mckit/parser/material_parser.py:18-21 | The token `m<n>` or `M<n>` for the decimal spelling of `n` is a NAME token whose value is `n`. |
| MaterialParser.NameLeadingZero | mckit/parser/material_parser.py:18-21 | A leading zero after the `m` does not change the material number. |
| MaterialParser.ReducedInOrder | mckit/parser/material_parser.py:88-95 | The left-recursive list rules build the list of items in source order. |
| MaterialParser.OptionAction | mckit/parser/material_parser.py:125-132 | The keyword is lower-cased. The value becomes an integer exactly for `gas`, `estep` and `cond`: the decimal number its digits spell. For any other keyword the value is the given string, unchanged. |
| MaterialParser.OptionCaseInsensitive | mckit/parser/material_parser.py:125-132 | The keyword's case does not matter, and an integer option reads back the number written. |
| MaterialParser.LastOptionWins | mckit/parser/material_parser.py:112-123 | The options dictionary holds exactly the keywords given, each with the value of its last occurrence. |
| MaterialParser.CompositionOptions | mckit/parser/material_parser.py:62-67 | `name` is set to the material number. `comment` is set to the comments when there are any. Every other key comes from, and every given key stays in, the given options. |
| MaterialParser.BuildComposition | mckit/parser/material_parser.py:54-68 | The loop splits the fractions into the atomic and weight references and builds the composition options. |
| MaterialParser.FractionsSplit | mckit/parser/material_parser.py:57-61 | Every fraction lands in exactly one list. Atomic fractions are non-negative and taken unchanged. Weight fractions are positive and are the negated inputs. |
| MaterialParser.FractionPlaced | mckit/parser/material_parser.py:57-61 | Every input fraction is found in its list: a non-negative one unchanged, a negative one negated. |
| MaterialParser.SplitAppend | mckit/parser/material_parser.py:57-61 | The split keeps source order: splitting a concatenation concatenates the splits. |
| Precision.HalfRoundedEven | mckit/utils.py:30 | `round(0.5 * n)` is within one half of `n / 2`, and ties go to the even integer. |
| Precision.SignificantDigits | mckit/utils.py:7-37 | The loop of `significant_digits` computes the reference bisection, or 0 below the resolution. |
| Precision.MidpointInside | mckit/utils.py:29-30 | While the gap is two or more, the midpoint lies strictly inside, so the loop terminates. |
| Precision.BisectBoundary | mckit/utils.py:27-37 | The bisection ends on a boundary of the tolerance test: the count it returns passes (or is the maximum), and the count below fails (or is 0). |
| Precision.DigitsRange | mckit/utils.py:25-37 | The count is 0 exactly below the resolution, and never exceeds the double's 15 digits. |
| Precision.BoundaryIsLeast | mckit/utils.py:29-36 | For a test that stays passed once passed, a boundary is the least passing count. |
| Precision.DigitsAreLeast | mckit/utils.py:7-37 | For such a test, `significant_digits` returns the least count that passes, or the maximum. |
| Precision.RoundedWithinTolerance | mckit/utils.py:29-37 | Rounding to the returned count keeps the relative error within the tolerance, unless the count is the maximum. |
| Precision.SignificantArray | mckit/utils.py:40-46 | A fresh array of the same length holds each element's digit count. |
| Precision.RoundArray | mckit/utils.py:67-85 | A fresh array of the same length holds each element rounded to its own count. A digit array shorter than the values raises IndexError. |

## Left out

- I/O: reading the deck stream, `InputSections.print`, the `split` command's file writing, and FISPACT file generation. These are side effects on files, not logic of the core.
- The regular expressions of the section parser are parameters. This covers the blank-line split with its `maxsplit` of 5, the `CARD_PATTERN` matches (`finditer` yields comment/card pairs) and `get_clean_text` (`clean`). Regular-expression matching is not modelled; `COMMENT_LINE_PATTERN` is written out as `Sections.IsCommentLine`.
- Digits and case mapping are ASCII only (`Text.IsDigit`, `Text.Lower`, `Text.Upper`). Python's `str.isdigit`, `int()` and `IGNORECASE` also accept other Unicode characters. Whitespace (`Text.IsSpace`) follows Python's full `str.isspace` set.
- `is_comment(seq)` and the `Card.is_*` properties are left out; they are one-line wrappers over what is modelled.
- `TIME_UNITS` lives in `mckit/constants.py`, which is not part of this model. It is a parameter: a map holding the five sort units with positive factors.
- Floating point is modelled by exact reals throughout: the flux normalisation, the time units, the relative tolerances, and `np.sqrt` of a cone card (a cone keeps its squared tangent). NaN and infinities are not modelled.
- The `{0:.5}` formatting of FLUX and TIME lines is not modelled; lines are kept as values.
- Activation.IrradiationProfile.Output: does not model the ValueError that `'{0:.5}'.format` raises on a Python `int`, because the model has one real number type and keeps no int/float distinction. The FLUX case is reachable: `relax` stores the int `0` (mckit/activation.py:505), and the factor is the int `1` when there is no norm flux or no nominal flux (lines 557-560). So a relax step after a non-zero flux formats the int `0` (line 566) and raises, as does an `irradiate` flux passed as an int. The TIME line (line 568) raises the same way when `adjust_time` returns an int duration unchanged. If the durations and time unit factors are ints, that happens for the int zero duration that `insert_record` leaves at an exact step end. In all these cases the model returns the lines.
- The geometry primitives behind the surface classes (`mckit/src/surface.c`), the `transform` options, and the tolerance box of `equals` are left out. `RESOLUTION` is the parameter `resolution`.
- Surfaces.Deduplicate: iteration over the unique set is modelled by an arbitrary choice of its elements, not CPython's hash order. The candidates are a sequence without repeats, standing for the set the source iterates.
- Surfaces.CreateSurface: builds the corrected by-points surfaces. Two heights that are both 0 (`X 0 1 0 2`) give a plane, and an apex at the first point (`Z 0 0 10 5`) gives a cone. For both inputs the source raises ZeroDivisionError (see Findings).
- Surfaces.CreateReplaceDictionary: requires distinct candidates, because the source receives them as a `set`.
- Activation.IrradiationProfile.InsertRecord: requires the three lists to be parallel. The source's branches for an insertion past the last step (lines 538-542) are then unreachable, since the flux lookup raises IndexError first. They are not modelled.
- NumberedIndex: the keyword arguments that `Index.__init__` passes to `dict` are left out. Object identity (`prev is not curr`) is covered by value equality. Only the three named duplicate strategies are modelled, not arbitrary callables.
- MaterialParser: the `sly` lexer and parser engine, the `FRACTION` and `EOL_COMMENT` token values, `mat.Element`, and `mat.Composition` itself (its constructor's checks) are left out. The mutation of the options dictionary is modelled on values.
- MaterialParser.OptionAction: requires a non-empty run of digits after `gas`, `estep` and `cond`, which is what the `OPTION` token pattern guarantees.
- Precision: `np.round` and the built-in `round` are the parameter `round`. Arrays are one-dimensional, standing for the flattened iteration over `np.indices`. The default `reltol` is a parameter.

## Findings

| source | as written | input that shows it | evidently intended | confidence | as-written member | corrected member |
|---|---|---|---|---|---|---|
| mckit/surface.py:111-122 | Two points are a plane only when their heights pass a strict relative closeness test. For heights that are both 0 that test compares 0 < 0. | `X 0 1 0 2` (params `[0, 1, 0, 2]` on the X axis) divides by zero in the cone branch. | The plane `x = 0`. | not executed | Surfaces.ZeroHeightsDivideByZero | Surfaces.EqualHeightsArePlane |
| mckit/surface.py:119-121 | The cone's sheet is `(h1 - h0) / abs(h1 - h0)`, with `h0` the apex height. | `Z 0 0 10 5` (first point on the axis) has `h0 == h1` and divides by zero. | The cone with apex at the first point, on the sheet of the second point. | not executed | Surfaces.ApexFirstDividesByZero | Surfaces.ApexAtFirstPoint |
| mckit/activation.py:465-466 | `irradiate` appends the flux before it looks up the unit. | `irradiate(1.0, 1.0, units='WEEKS')` raises KeyError with one more flux than durations and records. | Validate the unit before changing the profile. | not executed | Activation.IrradiationProfile.IrradiateAsWritten | Activation.IrradiationProfile.Irradiate |
| mckit/activation.py:505-506 | `relax` appends the zero flux before it looks up the unit. | `relax(1.0, units='WEEKS')` raises KeyError with one more flux than durations and records. | Validate the unit before changing the profile. | not executed | Activation.IrradiationProfile.RelaxAsWritten | Activation.IrradiationProfile.Relax |
