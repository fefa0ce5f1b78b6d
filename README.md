# Rule-based astrology backend, modelled in Dafny

This project models the core of a small rule-based "astrology" backend (`backend.py`).
Given a name, a birth date, an optional birth time and a place, the backend builds a
profile: the sun sign, the sign's element and modality, an age in whole years, a short
descriptive phrase and a one-sentence summary. Given a free-text question and a
previously built profile, it answers with a keyword-triggered template.

The model is pure, like the source. It has datatypes, functions and lemmas in six
modules:

- `Wrappers` — `Option` (Python's `None`) and `Result` (a value or an error text).
- `Dates` — the naive date-time the parser returns, `(month, day)` pairs, and their
  lexicographic comparison (Python tuple order). `MonthDayOf` is `_month_day`.
- `Text` — the ASCII parts of `str.lower()`, `str.strip()`, `str.title()`, substring
  search (`k in q`) and `any(...)`.
- `Zodiac` — the twelve-entry range table `ZODIAC_RANGES` and the attribute table
  `SIGN_INFO`, both as constants. `SearchRanges` is the first-match loop of
  `calculate_sun_sign` written as recursion, and `CalculateSunSign` is the resolver.
- `Report` — `ParserInput` builds the string handed to the parser. `ParseDateTime` is
  `parse_datetime`, `Age` is the age rule, and `GenerateReport` is `generate_report`. It
  returns either an `ErrorReport` or a `Profile`. The profile fields that the source
  fills from `dict.get` are `Option`s.
- `Answer` — the context dictionary as a record of optional fields, and the four
  templates. `SelectTopic` applies the keyword rules in priority order, `Rendered` picks
  the template for each topic, and `AnswerQuestion` is `answer_question`.

Three things come in as parameters, because the model cannot see them:

- `parse`: the date parser, a function from the assembled string to a date-time or to
  the text of the parser's complaint.
- `iso`: the ISO rendering of a date-time.
- `now`: the current time.

As functions, both operations are deterministic. The same inputs always give the same
report and the same answer, and every category answers with its first template.

The wrap test needs one remark. A wrap test could compare full `(month, day)` pairs,
calling a range wrapping when its start pair comes after its end pair. The code
(`backend.py:50`) compares only the *months*, and the model follows the code. `MonthTestAgrees` and `WrapTestOnTable` prove that
both readings agree on this table, because no range starts and ends in the same month.
`MonthTestNeedsDistinctMonths` shows a range on which they would differ.

The partition holds for every integer `(month, day)` pair, not only calendar dates.
Every end day in the
table is followed, in the same month, by the next range's start day. So every integer
`(month, day)` pair, in or out of the calendar, matches exactly one range
(`Zodiac.Partition`).

## Model

| member | source | states |
|---|---|---|
| `Dates.MonthDayOf` | backend.py:38-39 | `_month_day`: the (month, day) pair of a date-time; `Boundaries` and `Partition` are stated over it |
| `Dates.MonthDayLe` | backend.py:52-56 | Python's `<=` on (month, day) tuples, compared lexicographically |
| `Dates.MonthDayLt` | backend.py:88 | Python's `<` on (month, day) tuples in the age rule; `AgeCountsBirthdays` is stated with it |
| `Zodiac.Matches` | backend.py:50-57 | the source's range test; `MonthTestAgrees`, `WrapTestOnTable` and `Partition` state its properties |
| `Zodiac.SearchRanges` | backend.py:47-59 | the first-match loop with the capricorn fallback; `SearchRangesFirstMatch` states what it returns |
| `Zodiac.SearchRangesFirstMatch` | backend.py:47-59 | the search returns the sign of the first matching range; and it returns the fallback when no range matches |
| `Zodiac.Partition` | backend.py:8-21 | every (month, day) pair matches exactly one range of the table |
| `Zodiac.CalculateSunSign` | backend.py:41-59 | the resolved sign is in the attribute table and is the sign of a matching range; it is the sign of every matching range, so table order does not matter and the fallback is never the deciding branch |
| `Zodiac.SameSign` | backend.py:47-59 | in any table where some range matches and every matching range has one sign, the search of any reordering of that table returns that sign |
| `Zodiac.OrderIrrelevant` | backend.py:47-59 | searching any reordering of the range table gives the same sign as the table in source order |
| `Zodiac.Boundaries` | backend.py:9-21 | range ends are inclusive: 12-22 and 1-19 give capricorn, 12-21 sagittarius, 1-20 aquarius, 4-19 aries, 4-20 taurus |
| `Zodiac.MonthTestAgrees` | backend.py:50-57 | for a range that starts and ends in different months, the month-only wrap test matches exactly the dates the full-pair test matches |
| `Zodiac.WrapTestOnTable` | backend.py:50-57 | no table range starts and ends in the same month; only the first entry (capricorn) wraps; on the table the month test and the pair test agree everywhere |
| `Zodiac.MonthTestNeedsDistinctMonths` | backend.py:50 | every range that starts and ends in one month with its start day after its end day matches no date under the month test, while the pair test reads it as wrapping and matches both of its ends |
| `Zodiac.TableCorrespondence` | backend.py:8-36 | both tables have 12 entries; the range signs are distinct and are exactly the keys of the attribute table; every element is Fire, Earth, Air or Water, and every mode is Cardinal, Fixed or Mutable |
| `Zodiac.SignsDistinct` | backend.py:8-21 | no sign name appears twice in the range table |
| `Zodiac.RangeSignsKnown` | backend.py:8-36 | every sign of the range table has an attribute entry |
| `Zodiac.InfoSignsRanged` | backend.py:8-36 | every key of the attribute table is the sign of some range |
| `Zodiac.InfoKeySet` | backend.py:23-36 | the keys of the attribute table are the twelve sign names |
| `Zodiac.SignNamesCount` | backend.py:23-36 | there are twelve distinct sign names |
| `Zodiac.InfoCardinality` | backend.py:23-36 | the attribute table has twelve entries |
| `Zodiac.InfoValues` | backend.py:23-36 | every element and mode in the attribute table comes from its fixed set |
| `Report.ParseDateTime` | backend.py:61-72 | the parser applied to `ParserInput`; `BuildError` and `BuildSuccess` state both of its outcomes |
| `Report.Age` | backend.py:88 | the year difference less one before the birthday; `AgeCountsBirthdays` characterises it |
| `Report.GenerateReport` | backend.py:74-106 | the report builder; `BuildError` and `BuildSuccess` state its error and success records |
| `Report.InfoOf` | backend.py:84 | `SIGN_INFO.get(sign, {})`: the sign's entry or none; `BuildSuccess` shows it is always present for a resolved sign |
| `Report.Show` | backend.py:101-104 | how an optional value renders in an f-string: its text, or `None` |
| `Report.FullText` | backend.py:101-104 | the summary f-string; `BuildSuccess` states its text and `ResolvedSignTitle` the title-cased sign in it |
| `Report.ParserInput` | backend.py:67-70 | the parser gets the date, then one blank, then the time when a non-empty time is given; it gets the date alone when the time is absent or empty |
| `Report.AgeCountsBirthdays` | backend.py:88 | the computed age is the number of birthdays reached by `now`: that many have been reached and the next one has not |
| `Report.AgeOnBirthDate` | backend.py:88 | on the birth date itself the age is 0 |
| `Report.AgeNonNegative` | backend.py:88 | a birth date not after `now` gives an age of at least 0 |
| `Report.BuildError` | backend.py:78-81 | the result is an error record exactly when parsing fails; its text is "Invalid date/time format: " followed by the parser's complaint |
| `Report.BuildSuccess` | backend.py:83-105 | on a successful parse: the sign is the resolved sign; element, mode and phrase are that sign's table entry and never `None`; name and place pass through; the age follows the age rule; the summary interpolates them |
| `Report.SignNamesLowerWords` | backend.py:23-36 | every sign name is a single lower-case word |
| `Report.ResolvedSignTitle` | backend.py:102 | title case of the resolved sign raises its first letter and keeps the rest; `BuildSuccess` places it in the summary |
| `Report.AshaParserInput` | backend.py:67-68 | "1995-08-01" and "09:30" reach the parser as "1995-08-01 09:30" |
| `Report.LeoInAugust` | backend.py:16 | a birth on 1 August resolves to leo, whose table entry is Fire and Fixed |
| `Report.AshaExample` | backend.py:147 | "1995-08-01" at "09:30" gives leo, Fire, Fixed, with the age from the age rule |
| `Text.Lower` | backend.py:115 | ASCII `str.lower()`; `LowerIdempotent`, `LowerOfUpper`, `LowerKeepsLowerCase` state its properties |
| `Text.Strip` | backend.py:115 | ASCII `str.strip()`; `StripSpec` determines it |
| `Text.LeadingSpaces` | backend.py:115 | counts the white space at the start: everything before the count is white space, and the character at the count is not |
| `Text.TrailingSpaces` | backend.py:115 | counts the white space at the end, in the same way |
| `Text.StripSpec` | backend.py:115 | the result is empty exactly when the text is all white space; otherwise it is a slice that neither starts nor ends with white space, with only white space around it |
| `Text.StripKeepsTrimmed` | backend.py:115 | text with no white space at either end is unchanged by stripping |
| `Text.LowerKeepsLowerCase` | backend.py:115 | text without upper-case letters is unchanged by lower-casing |
| `Text.LowerIdempotent` | backend.py:115 | lower-casing twice is lower-casing once |
| `Text.LowerOfUpper` | backend.py:115 | lower-casing forgets the case of the input |
| `Text.LowerKeepsSpace` | backend.py:115 | lower-casing keeps length and leaves white space where it is |
| `Text.LowerKeepsOccurrence` | backend.py:115-121 | a keyword without upper-case letters that occurs in the question also occurs, at the same place, in the lower-cased question |
| `Text.TitleFrom` | backend.py:102 | the scan behind `str.title()`, raising a letter that follows no letter and lowering one that follows a letter |
| `Text.Title` | backend.py:102 | ASCII `str.title()`; `TitleOfLowerWord` states it on sign names |
| `Text.TitleFromKeepsLowerRun` | backend.py:127 | when title-casing, a run of lower-case letters after a letter is unchanged |
| `Text.TitleOfLowerWord` | backend.py:127 | title case of a lower-case word raises its first letter and keeps the rest |
| `Text.Contains` | backend.py:121 | Python's `k in q` as a scan; `ContainsIff` ties it to an occurrence |
| `Text.ContainsIff` | backend.py:121 | the left-to-right scan finds a pattern exactly when it occurs at some position of the text |
| `Text.MissingCharNotContained` | backend.py:121 | a pattern with a character the text lacks does not occur in it |
| `Text.NoneContainedByLetters` | backend.py:121 | no keyword occurs in a text that lacks one chosen letter of each keyword |
| `Text.AnyContained` | backend.py:121 | true exactly when some keyword of the list is found in the text |
| `Answer.ContextOf` | backend.py:109-116 | the report as the answer's `context`: name, sign, element and phrase; `AshaContext` and `ErrorContextPlaceholders` state it for both kinds of report |
| `Answer.SignShown` | backend.py:116 | `context.get("sun_sign", "unknown").title()`; `MissingSignShownUnknown` and `LeoShown` state it |
| `Answer.Rendered` | backend.py:119-143 | the prompt or the first template of each topic; `AnswerByTopic` states it |
| `Answer.Normalize` | backend.py:115 | the lower-cased, stripped question; `BlankQuestion`, `NonBlankQuestion` and `NormalizeKeepsNormal` state its properties |
| `Answer.SelectTopic` | backend.py:118-137 | the category chain; `SelectTopicIsTopicOf` ties it to keyword occurrence |
| `Answer.CareerAnswer` | backend.py:122-127 | the first career template with sign and element filled in |
| `Answer.LoveAnswer` | backend.py:129-133 | the first love template with name, sign and element filled in |
| `Answer.HealthAnswer` | backend.py:135-137 | the first health template with the sign filled in |
| `Answer.FallbackAnswer` | backend.py:140-143 | the fallback text with name, sign, element and phrase filled in |
| `Answer.AnswerQuestion` | backend.py:109-143 | `answer_question`; `AnswerByTopic` states which template each question gets |
| `Answer.AnyContainedIff` | backend.py:121-136 | a category's keyword test holds exactly when one of its keywords occurs in the question |
| `Answer.SelectTopicIsTopicOf` | backend.py:118-137 | the rules pick: no topic for an empty question; otherwise the first of career, love, health with a keyword occurring in the question; otherwise general |
| `Answer.AnswerByTopic` | backend.py:115-143 | the answer is the first template of the topic of the lower-cased, stripped question |
| `Answer.BlankQuestion` | backend.py:115-119 | a missing question, or one that is only white space, gets the fixed prompt |
| `Answer.NonBlankQuestion` | backend.py:115-118 | a question with any character other than white space is not empty after normalization |
| `Answer.CaseVariantsAgree` | backend.py:115 | any two questions equal after lower-casing get the same answer |
| `Answer.AnswerIgnoresCase` | backend.py:115 | a question, its lower-case form and its upper-case form get the same answer |
| `Answer.NormalizeKeepsNormal` | backend.py:115 | a lower-case question with no white space at either end is its own normalized form |
| `Answer.CareerFirst` | backend.py:121-127 | a career keyword decides the topic, whatever other keywords occur |
| `Answer.LoveSecond` | backend.py:129-134 | a love keyword decides the topic when no career keyword occurs |
| `Answer.JobAndMarriageTopic` | backend.py:121-134 | "will my job help my marriage" mentions both a career and a love keyword and is classed as career |
| `Answer.JobAndMarriageMentions` | backend.py:121-129 | "job" and "marriage" both occur in "will my job help my marriage" |
| `Answer.CareerBeforeLove` | backend.py:121-127 | "will my job help my marriage" gets the career answer |
| `Answer.DayHasNoKeyword` | backend.py:121-136 | "tell me about my day" contains none of the eleven keywords |
| `Answer.DayQuestionTopic` | backend.py:118-140 | "tell me about my day" is a general question |
| `Answer.FallbackForDay` | backend.py:140-143 | "tell me about my day" gets the fallback answer |
| `Answer.PromotionTopic` | backend.py:121 | "Will I get a promotion?" is a career question once lower-cased |
| `Answer.PromotionOccurs` | backend.py:115-121 | "promotion" occurs in the lower-cased "Will I get a promotion?" |
| `Answer.PromotionAnswer` | backend.py:121-127 | "Will I get a promotion?" gets the career answer |
| `Answer.LeoShown` | backend.py:127 | the sign `leo` is shown as `Leo` |
| `Answer.AshaContext` | backend.py:147 | the context of the demonstration report holds the name Asha, the sign leo and the element Fire |
| `Answer.AshaPromotion` | backend.py:146-149 | in the demonstration, the promotion question gets the career answer for a Leo of the Fire element |
| `Answer.MissingSignShownUnknown` | backend.py:116 | a context without a sign shows the sign as `Unknown` |
| `Answer.ErrorContextPlaceholders` | backend.py:116 | the context of an error record shows the sign as `Unknown` and the name, element and phrase as `None` |

## Left out

- The date parser itself (`dateutil.parser.parse`, backend.py:71) is a foreign library
  with heuristic parsing. It is the `parse` parameter, and the model does not say which
  strings it accepts.
- The ISO rendering `dt.isoformat()` (backend.py:94) is the `iso` parameter.
- `datetime.now()` (backend.py:87) is the `now` parameter. So the bare `except` around
  the age (backend.py:89-90) cannot be reached and is dropped, and the age is a plain
  integer, never `None`.
- Python's `lower()`, `strip()` and `title()` are modelled for ASCII only. Non-ASCII case
  mappings and non-ASCII white space are not modelled.
- The unused alternative templates (`templates[1:]`, backend.py:124-125 and 132) are
  never selected, so they are not in the model.
- The context dictionary is a record with four optional fields. The model does not tell
  a missing key from a key whose value is `None`. For `sun_sign` the two differ in
  Python: a present `None` would fail at `.title()`. A built report never holds one.
- The HTTP layer (`app.py`) and the cached last report are not part of this model:
  routing, JSON handling, static files and the module-level `_last_report_cache`.
