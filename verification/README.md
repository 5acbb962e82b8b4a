# Thermostat client: request construction

This project models the request-building core of `ThermostatInterface`, the
client of a Wi-Fi thermostat's HTTP/JSON API in the platform driver. Each
method of the client builds one request: a URL that is either the base
address or the base address with a fixed suffix (`/led`, `/model`,
`/program/heat`, `/program/cool`, optionally followed by `/<day>`), and, for
writes, a small JSON object serialised to text. It hands that request to
`urlopen`. When the transport delivers a reply, the method returns it
re-encoded as JSON text. Anything that fails inside the method's `try` block
is returned as the result instead of being raised. Under Python 3, `urlopen`
refuses a text body, so every write that gets as far as `urlopen` returns
that refusal (see
`WritesFailOnTextBodies` below and "## Left out").

The model is written in the same pure form as the source:

- `wrappers.dfy` (`Wrappers`): the Option type.
- `json.dfy` (`Json`): abstract JSON values. Objects are lists of entries in
  insertion order. They are built with `Put`, which behaves like assignment into a
  Python dict.
- `pytext.dfy` (`PyText`): the Python text operations the client uses.
  `str.isdigit` and `int()` of digit text, `str()` of a value,
  `str.split(',')`, and `int()` of an arbitrary value. `str` and `int` of
  integers are tied to each other by round-trip lemmas, and so are `split` and
  `join`. `str()` of a list or dict is described only by its shape.
- `schedule.dfy` (`Schedule`): the single-day schedule conversion
  `[int(e) if e.isdigit() else e for e in schedule.split(',')]`. It comes with
  its element-by-element meaning and the condition under which writing the list
  back gives the text again.
- `thermostat.dfy` (`Thermostat`): the client value (base address and day
  table), one plan function per client method, and the abstract transport. A
  plan is to issue one request, to fail inside the `try` block, or to fail before it.
  `Perform` runs a plan against an abstract transport, a function from request to
  "delivered text" or "failed". `PlanOf` and `Invoke` dispatch an operation to its plan as the client is
  written. `model()` is dispatched as written, so it always raises.
  `DeviceModelPlan` is the corrected `model()` (see "## Findings") and is not
  used by the dispatcher.

An unknown weekday in a single-day program write raises a KeyError at the table
lookup. That lookup sits inside the `try` block (thermostat_api.py:260-264 and
310-313), so the model returns the KeyError as the method's result and issues
no request. It is not a failure that escapes the call.

## Model

| member | source | states |
|---|---|---|
| `Json.Put` | services/core/PlatformDriverAgent/platform_driver/interfaces/thermostat_api.py:69-71 | assigning a key adds it to the key set and keeps insertion order: earlier keys stay in place, a new key goes last, an existing key keeps its position |
| `Json.PutLookup` | services/core/PlatformDriverAgent/platform_driver/interfaces/thermostat_api.py:71 | after `d[k] = v`, `d[k]` is `v` and every other key keeps its value (a repeated key in a dict display takes the later value) |
| `Json.PutDistinct` | services/core/PlatformDriverAgent/platform_driver/interfaces/thermostat_api.py:71 | a dict built by assignment never holds a key twice |
| `Json.Lookup` | services/core/PlatformDriverAgent/platform_driver/interfaces/thermostat_api.py:69-71 | `d[k]` of the dict built at lines 69-71: no value exactly when `k` is not a key, and otherwise a value stored under `k` |
| `PyText.NatToDecimal` | services/core/PlatformDriverAgent/platform_driver/interfaces/thermostat_api.py:247 | `str(n)` of a natural number is non-empty digit text without a leading zero |
| `PyText.IntToDecimal` | services/core/PlatformDriverAgent/platform_driver/interfaces/thermostat_api.py:247 | `str(i)` is all digits exactly when `i >= 0` and starts with '-' exactly when `i < 0` |
| `PyText.DecimalRoundTrip` | services/core/PlatformDriverAgent/platform_driver/interfaces/thermostat_api.py:262 | `int(str(n)) == n` for every natural number `n` |
| `PyText.CanonicalRoundTrip` | services/core/PlatformDriverAgent/platform_driver/interfaces/thermostat_api.py:262 | digit text without a leading zero is what `str(int(e))` gives back |
| `PyText.Split` | services/core/PlatformDriverAgent/platform_driver/interfaces/thermostat_api.py:262 | `split(',')` gives at least one piece and no piece contains the separator |
| `PyText.SplitCount` | services/core/PlatformDriverAgent/platform_driver/interfaces/thermostat_api.py:312 | the split has exactly one more piece than the text has commas |
| `PyText.JoinSplit` | services/core/PlatformDriverAgent/platform_driver/interfaces/thermostat_api.py:262 | joining the pieces with the separator restores the text |
| `PyText.SplitJoin` | services/core/PlatformDriverAgent/platform_driver/interfaces/thermostat_api.py:312 | splitting separator-free pieces joined with the separator gives the pieces back |
| `PyText.Show` | services/core/PlatformDriverAgent/platform_driver/interfaces/thermostat_api.py:247 | `str(schedules)`: text is rendered as itself, integers in decimal, lists start with '[' and dicts with '{' |
| `PyText.StripStart` | services/core/PlatformDriverAgent/platform_driver/interfaces/thermostat_api.py:172 | `int()` drops leading whitespace: the result is a suffix, everything dropped is whitespace, and it does not start with whitespace |
| `PyText.StripEnd` | services/core/PlatformDriverAgent/platform_driver/interfaces/thermostat_api.py:172 | `int()` drops trailing whitespace: the result is a prefix, everything dropped is whitespace, and it does not end with whitespace |
| `PyText.SignedValue` | services/core/PlatformDriverAgent/platform_driver/interfaces/thermostat_api.py:172 | `int()` accepts exactly a run of digits, optionally after one '+' or '-'. The value is that of the digits, negated after '-' |
| `PyText.IntOf` | services/core/PlatformDriverAgent/platform_driver/interfaces/thermostat_api.py:172 | `int(data)` keeps an integer as is; a TypeError occurs exactly for values that are not an integer, a boolean or text |
| `PyText.IsDigitsConverts` | services/core/PlatformDriverAgent/platform_driver/interfaces/thermostat_api.py:262 | `e.isdigit()` guarantees that `int(e)` succeeds, with the value of the digits |
| `PyText.IntOfDecimal` | services/core/PlatformDriverAgent/platform_driver/interfaces/thermostat_api.py:172 | `int(str(i)) == i` for every integer, so `energy_led("2")` converts to 2 |
| `Schedule.ParseToken` | services/core/PlatformDriverAgent/platform_driver/interfaces/thermostat_api.py:262 | a token becomes an integer exactly when it is non-empty ASCII digits, and then it is the value of those digits; otherwise it stays the same text. The integer reads back to the token exactly when the token has no leading zero |
| `Schedule.ParseSchedule` | services/core/PlatformDriverAgent/platform_driver/interfaces/thermostat_api.py:312 | the list has (number of commas + 1) elements; element i is the integer value of token i when that token is all digits, and otherwise token i unchanged |
| `Schedule.TokenTextHasNoComma` | services/core/PlatformDriverAgent/platform_driver/interfaces/thermostat_api.py:262 | a converted token written back has no comma |
| `Schedule.WrittenBack` | services/core/PlatformDriverAgent/platform_driver/interfaces/thermostat_api.py:262 | writing the list back takes `str()` of each converted token, with one piece per token and no comma in any piece |
| `Schedule.TokenRoundTrip` | services/core/PlatformDriverAgent/platform_driver/interfaces/thermostat_api.py:262 | `str()` of a converted token is the token exactly when it is not digits with a leading zero |
| `Schedule.RoundTripWhenUnpadded` | services/core/PlatformDriverAgent/platform_driver/interfaces/thermostat_api.py:262 | without zero-padded numbers, writing the list back restores the schedule text |
| `Schedule.UnpaddedWhenRoundTrip` | services/core/PlatformDriverAgent/platform_driver/interfaces/thermostat_api.py:312 | if writing the list back restores the text, no token was a zero-padded number |
| `Schedule.ScheduleRoundTrip` | services/core/PlatformDriverAgent/platform_driver/interfaces/thermostat_api.py:312 | the conversion loses information exactly when some all-digit token has a leading zero |
| `Schedule.CompactDigitsBecomeNumbers` | services/core/PlatformDriverAgent/platform_driver/interfaces/thermostat_api.py:262 | a schedule written without spaces, "360,80,480,80", converts to [360, 80, 480, 80] |
| `Schedule.TokensAfterCommaSpace` | services/core/PlatformDriverAgent/platform_driver/interfaces/thermostat_api.py:262 | when every comma is followed by a space, every token after the first starts with that space and the first starts with the text's first character |
| `Schedule.CommaSpaceTokensStayText` | services/core/PlatformDriverAgent/platform_driver/interfaces/thermostat_api.py:262 | in a schedule written with ", " between entries, every element after the first stays text; so does the first unless the text starts with a digit |
| `Schedule.UsageNoteScheduleStaysText` | services/core/PlatformDriverAgent/platform_driver/interfaces/thermostat_api.py:235 | the schedule text of the usage notes, `{"360, 80, 480, 80, 1080, 80, 1320 , 80"`, converts to text elements only: no element becomes a number |
| `Schedule.PaddedTokensStayText` | services/core/PlatformDriverAgent/platform_driver/interfaces/thermostat_api.py:312 | in "360, 80" the token " 80" is not all digits and stays text |
| `Thermostat.NewClient` | services/core/PlatformDriverAgent/platform_driver/interfaces/thermostat_api.py:53-63 | the client keeps the base address as given; its day table has exactly the keys mon..sun, mapped in order to "0".."6" |
| `Thermostat.DayTableIsOneToOne` | services/core/PlatformDriverAgent/platform_driver/interfaces/thermostat_api.py:55-63 | two weekdays share an index exactly when they are the same day |
| `Thermostat.Perform` | services/core/PlatformDriverAgent/platform_driver/interfaces/thermostat_api.py:73-78 | a call issues at most one request. Only a failure before the `try` block is raised. A transport failure or a failure inside the block is returned as the result, and a delivered reply is returned as its text |
| `Thermostat.Single` | services/core/PlatformDriverAgent/platform_driver/interfaces/thermostat_api.py:104 | a one-entry dict display has exactly that key, bound to that value |
| `Thermostat.Pair` | services/core/PlatformDriverAgent/platform_driver/interfaces/thermostat_api.py:71 | a two-entry dict display has exactly the two keys, with the second value winning when they coincide |
| `Thermostat.SetpointPlan` | services/core/PlatformDriverAgent/platform_driver/interfaces/thermostat_api.py:66-78 | POST to the base address; the object holds only `point: data` when `tmode == ''`, and otherwise `"tmode": tmode` as well |
| `Thermostat.CoolPlan` | services/core/PlatformDriverAgent/platform_driver/interfaces/thermostat_api.py:80-89 | POST to the base address of exactly `{"tmode": 2, "t_cool": data}`, with no key repeated |
| `Thermostat.HeatPlan` | services/core/PlatformDriverAgent/platform_driver/interfaces/thermostat_api.py:91-100 | POST to the base address of exactly `{"tmode": 1, "t_heat": data}`, with no key repeated |
| `Thermostat.OverridePlan` | services/core/PlatformDriverAgent/platform_driver/interfaces/thermostat_api.py:102-111 | POST to the base address of exactly `{"override": data}` |
| `Thermostat.HoldPlan` | services/core/PlatformDriverAgent/platform_driver/interfaces/thermostat_api.py:113-122 | POST to the base address of exactly `{"hold": data}` |
| `Thermostat.FanModePlan` | services/core/PlatformDriverAgent/platform_driver/interfaces/thermostat_api.py:145-155 | POST to the base address of exactly `{"fmode": data}` |
| `Thermostat.ModePlan` | services/core/PlatformDriverAgent/platform_driver/interfaces/thermostat_api.py:157-167 | POST to the base address of exactly `{"tmode": data}` |
| `Thermostat.WritesAreSetpoints` | services/core/PlatformDriverAgent/platform_driver/interfaces/thermostat_api.py:66-122 | `t_cool`, `t_heat`, `over`, `hold`, `fmode` and `mode` build exactly the request `t_setpoint` builds for their key and mode |
| `Thermostat.DeviceModelAsWritten` | services/core/PlatformDriverAgent/platform_driver/interfaces/thermostat_api.py:124-126 | `model()` as written fails with an AttributeError before its `try` block |
| `Thermostat.DeviceModelAlwaysRaises` | services/core/PlatformDriverAgent/platform_driver/interfaces/thermostat_api.py:124-132 | whatever the client and transport, `model()` as written issues no request and raises |
| `Thermostat.DeviceModelPlan` | services/core/PlatformDriverAgent/platform_driver/interfaces/thermostat_api.py:124-132 | corrected `model()`: GET base + "/model" without a body |
| `Thermostat.StatusPlan` | services/core/PlatformDriverAgent/platform_driver/interfaces/thermostat_api.py:134-143 | `tstat()`: GET the base address without a body |
| `Thermostat.EnergyLedPlan` | services/core/PlatformDriverAgent/platform_driver/interfaces/thermostat_api.py:169-180 | a request is issued exactly when `int(data)` succeeds, and it is a POST of exactly `{"energy_led": int(data)}` to base + "/led". Otherwise the call fails before the `try` block with a TypeError or a ValueError |
| `Thermostat.EnergyLedCoercesText` | services/core/PlatformDriverAgent/platform_driver/interfaces/thermostat_api.py:172 | `energy_led("2")` builds the same request as `energy_led(2)`, which sends `{"energy_led": 2}` |
| `Thermostat.GetProgramPlan` | services/core/PlatformDriverAgent/platform_driver/interfaces/thermostat_api.py:182-204 | GET base + "/program/<kind>" when `day == ''`, and otherwise base + "/program/<kind>/" + day, with no lookup of the day |
| `Thermostat.SetProgramPlan` | services/core/PlatformDriverAgent/platform_driver/interfaces/thermostat_api.py:230-269 | with `day == ''` the schedules are POSTed unmodified to base + "/program/<kind>". With an unknown day the result is a caught KeyError. Otherwise it POSTs to base + "/program/<kind>/" + day (the name, not the index) an object whose only key is the day's index, bound to the list converted from `str(schedules)` |
| `Thermostat.PlanOf` | services/core/PlatformDriverAgent/platform_driver/interfaces/thermostat_api.py:65-317 | the dispatcher as written: a call fails before its `try` block exactly for `model()` and for `energy_led` with an argument `int()` rejects; it fails inside the block exactly for a single-day program write with an unknown day; a request it issues is a GET exactly for `tstat()` and the program reads |
| `Thermostat.Invoke` | services/core/PlatformDriverAgent/platform_driver/interfaces/thermostat_api.py:65-317 | a call hands the transport at most one request, and none exactly when it is `model()`, `energy_led` with an argument `int()` rejects, or a single-day program write with an unknown day |
| `Thermostat.ReadsSendNoBody` | services/core/PlatformDriverAgent/platform_driver/interfaces/thermostat_api.py:193-198 | a request is a GET exactly when the operation is `tstat()` or a program read, and carries no body exactly then |
| `Thermostat.CatchAndReturn` | services/core/PlatformDriverAgent/platform_driver/interfaces/thermostat_api.py:124-180 | a call raises exactly when it is `model()` or `energy_led` with an argument `int()` rejects; a transport failure is returned as the caught error |
| `Thermostat.OneRequestPerCall` | services/core/PlatformDriverAgent/platform_driver/interfaces/thermostat_api.py:124-257 | every call issues at most one request, and `tstat()`, the program reads and whole-week writes always issue one |
| `Thermostat.UnknownDayIssuesNothing` | services/core/PlatformDriverAgent/platform_driver/interfaces/thermostat_api.py:308-317 | a single-day write for a day outside the table issues no request and returns the KeyError, whatever the transport |
| `Thermostat.WritesFailOnTextBodies` | services/core/PlatformDriverAgent/platform_driver/interfaces/thermostat_api.py:72-78 | with a transport that refuses every text body, as Python 3's `urlopen` does, every write that issues its request returns the caught refusal |
| `Thermostat.CompactDayWrite` | services/core/PlatformDriverAgent/platform_driver/interfaces/thermostat_api.py:259-264 | `set_cool_pgm("360,80,480,80", "thu")` POSTs `{"3": [360, 80, 480, 80]}` to base + "/program/cool/thu" |

## Left out

- Opening the URL, reading the reply, and decoding and re-encoding it as JSON
  (`urlopen`, `loadb`, `dumps` of the reply) are network I/O and a library
  serialiser. They are one abstract transport function from request to
  delivered text or failure reason.
- The exact JSON text of request bodies (key order, whitespace) comes from the
  library serialiser. Bodies are abstract JSON values.
- Request bodies are text: `jsonapi.dumps` returns `str` (thermostat_api.py:72,
  252, 264, 301, 313). Python 3's `urlopen` refuses a `str` body with a
  TypeError, which the `try` block catches, so every write that gets as far as
  `urlopen` returns that TypeError and never reaches the device. The writes that
  stop earlier keep their own outcome: `energy_led` with an argument `int()`
  rejects raises before the `try` block (line 172), and a single-day program
  write for an unknown day returns the KeyError (lines 260-269). The model keeps the transport
  abstract: a `Delivered` reply to a POST stands for a transport that accepts a
  text body. `WritesFailOnTextBodies` states what happens with one that does not.
- The startup message printed by the constructor (thermostat_api.py:64) is output only.
- `Thermostat_API(url)` (thermostat_api.py:46-48) only calls the constructor. It is the same as `NewClient`.
- Values are `None`, booleans, integers, text, lists and dicts. Floating-point
  numbers and other Python objects are not modelled.
- Day names and dict keys are text. `str(day)` of a non-text day is not modelled.
- PyText.SignedValue: the limit of 4300 digits that CPython 3.11 (and the
  security releases 3.7.14, 3.8.14, 3.9.14 and 3.10.7) puts on converting
  between int and decimal text is not modelled. Longer digit text converts
  without error here, where such a Python raises ValueError.
- PyText.IsDigitsConverts: the same digit limit is not modelled. With it,
  `isdigit()` text longer than 4300 digits makes `int()` raise ValueError, so
  `energy_led` would raise before its `try` block (line 172).
- Schedule.ParseToken: the same digit limit is not modelled. With it, a token
  longer than 4300 digits makes the conversion at line 262 raise ValueError,
  which the `try` block catches, and no request is issued.
- PyText.IntToDecimal: the same digit limit is not modelled. With it, `str()`
  of an integer longer than 4300 digits raises ValueError, at line 247 or
  inside `jsonapi.dumps` at line 72, both outside the `try` block.
- PyText.IsDigits: only ASCII digits count. Python's `isdigit` also accepts other
  Unicode digits, some of which `int()` then rejects.
- PyText.IntOf: only ASCII whitespace is stripped. Underscores between digits
  (which `int()` accepts) and non-ASCII digits are not modelled.
- PyText.Show: `repr` of text inside a list or dict is always single-quoted
  and never escaped. Python picks double quotes for text containing a single
  quote and escapes special characters.
- The platform-manager UI action creators (asynchronous RPC dispatch with no
  logic of their own) are not part of this model.

## Findings

| source | as written | input that shows it | evidently intended | confidence | as-written member | corrected member |
|---|---|---|---|---|---|---|
| services/core/PlatformDriverAgent/platform_driver/interfaces/thermostat_api.py:126 | `model()` builds its URL from `self.address`, which the constructor never sets (it sets `urladdress`), outside the `try` block | any call of `model()` on any client | GET `urladdress + "/model"` like every other read | high; not executed | `Thermostat.DeviceModelAsWritten` (with `Thermostat.DeviceModelAlwaysRaises`) | `Thermostat.DeviceModelPlan` |
