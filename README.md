# star_track_python: a verified model of its self-contained logic

The repository's scripts mostly drive libraries (scikit-learn, pandas,
Plotly, Dash, the Elasticsearch client). This project models the four
parts that carry logic of their own, and proves what they promise:

- **Slide deck (`lib/slide.py`).** `show_html_slides` builds the markup of
  a deck from `{title, items}` records by string concatenation, writes
  `totalSlides` into the page, and the embedded script moves a wrap-around
  counter over `1..totalSlides`, moving the `active` class along with it.
  Module `Slide`:
  - the two loops are methods: `RenderContent` and `ShowHtmlSlides`;
  - the markup they must build is given by functions (`Fragment`,
    `SlidesHtml`);
  - the page in the browser is the class `Navigator`, holding
    `currentSlide`, `totalSlides` and one class list per slide element.
- **Search request bodies (`lib/search.py`).** `analyze_morph` fills an
  analyze body from optional arguments and picks the index-scoped or the
  global endpoint. `create_index` deletes an index of that name if it
  exists, then creates it from a settings/mappings body. Module `Search`:
  - the body builders are methods specified by predicates;
  - the cluster is the class `IndexStore`, a map from index names to
    bodies.
- **Weather tool texts (`0527/weather-mcp/weather_server.py`).** It
  formats alert features, the alerts text for a state and the forecast
  text for a location. Module `Weather`:
  - each result of `make_nws_request` is an input: an `Option` of the
    parsed dict, or a function from the URL to one;
  - the forecast loop is the method `FormatPeriods`, and
    `GetWeatherForecast` calls it.
- **Magic-method tutorial (`0527/python/magic_method.py`).**
  `MagicMethodsExample` is a mutable record of `name` and `age` with keyed
  access, `==`, `<`, `+` and `len`. `DataProcessor` gets its truth value
  and its iteration from its list. Module `Magic`: Python leaves the field
  types open, so a field holds `None`, an `int` or a `str` (`PyValue`),
  and each operator raises `TypeError` exactly where Python's does.

Shared modules:
- `Wrappers`: `Option`, `Result` and the Python exceptions the code can
  raise.
- `Text`: decimal numerals, `+=` concatenation, `str.join`,
  `str.split("\n")`, and the whitespace tokenising of an HTML `class`
  attribute.
- `Json`: parsed JSON values, with Python's truth test, `str()` and
  `v[key]`.

Where the code and its description differ, the model follows the code:
- Every slide after the first gets the class attribute `"slide-content "`,
  with a trailing space. The model renders exactly that.
  `ClassListOfSlide` shows this is still the single class `slide-content`.
- `format_alert` raises when `feature["properties"]` is missing or is not
  a dict. The model returns these errors instead of assuming the key is
  there.

## Model

| member | source | states |
|---|---|---|
| Slide.RenderContent | lib/slide.py:12-20 | the content markup grown by `+=` is the `<h1>` title, then a `<ul>` of one `<li>` per item exactly when there are items |
| Slide.ShowHtmlSlides | lib/slide.py:8-26 | `totalSlides` is the number of records and the markup is the concatenation of one fragment per record in input order |
| Slide.SlidesHtmlSnoc | lib/slide.py:10-26 | one more record adds exactly one fragment at the end, numbered after the others |
| Slide.SlidesHtmlPrefix | lib/slide.py:10-26 | the markup of every prefix of the records is a prefix of the whole markup: fragments keep input order and later records never alter earlier ones |
| Slide.ClassListOfSlide | lib/slide.py:11-23 | the class list of slide 0 is [`slide-content`, `active`] and that of every other slide is [`slide-content`] |
| Slide.ActiveOnlyOnFirst | lib/slide.py:11-23 | `active` is among a fragment's classes iff it is the first fragment |
| Slide.SlideIdNumber | lib/slide.py:23 | the id of fragment k is `slide-` followed by the numeral of k + 1 |
| Slide.SlideIdsDistinct | lib/slide.py:23 | two fragments have the same id iff they are the same fragment |
| Slide.ListOnlyForItems | lib/slide.py:12-20 | a `<ul>` is emitted iff the record has a non-empty `items`; a missing `title` gives an empty `<h1>` |
| Slide.ItemsHtmlAppend | lib/slide.py:18-19 | the item markup of a concatenation of lists is the concatenation of their markups, so items are rendered one `<li>` each, in order |
| Slide.Prev | lib/slide.py:161-165 | `prevSlide` keeps the counter within the deck whenever it was |
| Slide.Next | lib/slide.py:167-171 | `nextSlide` keeps the counter within the deck whenever it was |
| Slide.PrevNextInverse | lib/slide.py:161-171 | on a non-empty deck, stepping back undoes stepping forward and vice versa |
| Slide.NextNAdd | lib/slide.py:167-171 | a + b presses of "next" are a presses followed by b presses |
| Slide.NextNClimbs | lib/slide.py:167-171 | from slide c, k presses of "next" reach c + k as long as that is within the deck |
| Slide.NextNCycle | lib/slide.py:167-171 | totalSlides presses of "next" come back to the starting slide, so the counter wraps from the last slide to the first |
| Slide.Navigator.constructor | lib/slide.py:131-132 | the page starts at slide 1 with `totalSlides` slides, each with the classes of its fragment, and only slide 1 active |
| Slide.Navigator.ShowSlide | lib/slide.py:134-143 | afterwards slide n is the only slide with `active`, and every other class of every slide is kept |
| Slide.Navigator.PrevSlide | lib/slide.py:161-165 | the counter steps back with wrap-around to the last slide, stays in range, the new slide is the only active one, and every other class of every slide is kept |
| Slide.Navigator.NextSlide | lib/slide.py:167-171 | the counter steps forward with wrap-around to slide 1, stays in range, the new slide is the only active one, and every other class of every slide is kept |
| Slide.Navigator.Load | lib/slide.py:173-175 | after the page loads, the current slide is the only active one and every other class of every slide is kept |
| Search.AnalyzeBody | lib/search.py:33-49 | the body has `text`; `analyzer`, `filter` and `explain` (as `True`) exactly when their arguments are truthy; and `tokenizer` is the Nori dict when a Nori option is given, otherwise the given name exactly when it is truthy |
| Search.AnalyzeBodyDetermined | lib/search.py:33-49 | the rules fix the body completely: two bodies that satisfy them for the same arguments are equal |
| Search.NoriTokenizerDetermined | lib/search.py:45-49 | the inline tokenizer is fixed completely by the two Nori options |
| Search.AnalyzeMorph | lib/search.py:33-54 | the call carries that body, and it goes to the index-scoped endpoint for that index iff `index` is truthy |
| Search.AnalyzeDefaults | lib/search.py:4-33 | with every argument left at its default, the body is just `{"text": text}` |
| Search.CreateIndexBody | lib/search.py:80-84 | the body holds `settings` iff settings is truthy and `mappings` iff mappings is truthy, each with the given value |
| Search.BothGivenFillBody | lib/search.py:80-84 | for any truthy settings and mappings, the body is exactly `{"settings": settings, "mappings": mappings}` |
| Search.DefaultsFillBody | lib/search.py:80-102 | passing `DEFAULT_SETTINGS` and `DEFAULT_MAPPINGS` gives a body with exactly both of them |
| Search.IndexStore.constructor | lib/search.py:76 | the store starts with the given indices |
| Search.IndexStore.Delete | lib/search.py:79 | the index is removed, and deleting succeeds iff it existed |
| Search.IndexStore.Create | lib/search.py:85 | creation succeeds iff the name is free, and then adds that index only |
| Search.IndexStore.CreateIndex | lib/search.py:78-85 | creating always succeeds, overwriting any index of that name with the new body, and leaves every other index as it was |
| Json.Subscript | 0527/weather-mcp/weather_server.py:30 | `v[key]` yields the value iff v is a dict holding the key; otherwise it raises `KeyError` on a dict and `TypeError` on anything else |
| Weather.FormatAlert | 0527/weather-mcp/weather_server.py:28-37 | formatting succeeds iff the feature is a dict whose `properties` is a dict, and otherwise raises `TypeError`, `KeyError("properties")` or `AttributeError("get")` accordingly |
| Weather.FormatAlertLines | 0527/weather-mcp/weather_server.py:30-37 | the alert text is an empty line, then event, area, severity, description and instruction lines, each showing the property or its fixed default when absent, then an empty line |
| Weather.FormatAlertStartsWithNewline | 0527/weather-mcp/weather_server.py:31 | every formatted alert starts with a newline |
| Weather.MapResult | 0527/weather-mcp/weather_server.py:56 | the comprehension succeeds iff every element formats, then gives their texts in order; otherwise it raises the exception of the first element that fails |
| Weather.AlertsUrl | 0527/weather-mcp/weather_server.py:47 | the URL is the API base, then `/alerts/active/area/`, then the state code |
| Weather.JoinedTextsStartWithNewline | 0527/weather-mcp/weather_server.py:57 | texts that each start with a newline join to a text that is empty or starts with a newline |
| Text.JoinLength | 0527/weather-mcp/weather_server.py:57 | joining n >= 1 texts inserts exactly n - 1 separators |
| Weather.AlertsOutcomes | 0527/weather-mcp/weather_server.py:41-57 | for the response fetched from the state's alerts URL, the tool returns "cannot fetch" iff the fetch failed or has no `features`; "no active alerts" iff `features` is falsy; otherwise the result is the features formatted in order and joined by the separator |
| Weather.FirstFive | 0527/weather-mcp/weather_server.py:85 | `periods[:5]` is the first min(5, n) elements of a list, at most five values, and raises `TypeError` on values that cannot be sliced |
| Weather.FormatPeriod | 0527/weather-mcp/weather_server.py:86-91 | a period formats iff it is a dict holding all six keys; otherwise it raises `TypeError` or `KeyError`, with `KeyError("name")` when the name is missing |
| Weather.FormatPeriodLines | 0527/weather-mcp/weather_server.py:86-91 | the period text is an empty line, then the name, temperature with unit, wind and detailed-forecast lines, then an empty line |
| Weather.FormatPeriodStartsWithNewline | 0527/weather-mcp/weather_server.py:86 | every formatted period starts with a newline |
| Weather.FormatPeriods | 0527/weather-mcp/weather_server.py:84-92 | the append loop gives every shown period's text in order, or the exception of the first period that fails |
| Weather.GetWeatherForecast | 0527/weather-mcp/weather_server.py:72-94 | the tool's result equals the specification `ForecastText` of the same responses |
| Weather.PeriodsAtMostFive | 0527/weather-mcp/weather_server.py:85 | a list of periods gives the same text as its first five elements |
| Weather.PeriodsPieces | 0527/weather-mcp/weather_server.py:84-94 | a forecast text is the first min(5, n) periods formatted in order and joined by the separator |
| Weather.ForecastFailureMessages | 0527/weather-mcp/weather_server.py:72-80 | the points message is returned iff the points response is falsy; the forecast message iff the points response names a URL whose response is falsy |
| Weather.PeriodsNeverAMessage | 0527/weather-mcp/weather_server.py:84-94 | a text built from periods is never one of the two failure messages |
| Magic.Less | 0527/python/magic_method.py:32-34 | `<` on field values is defined iff both are numbers or both are strings, and raises `TypeError` otherwise |
| Magic.LessStrictOrder | 0527/python/magic_method.py:32-34 | `<` on field values is irreflexive and transitive |
| Magic.LessTotal | 0527/python/magic_method.py:32-34 | two different values of the same type are ordered one way or the other |
| Magic.Plus | 0527/python/magic_method.py:24-26 | `+` is defined iff both are numbers or both strings, and on strings it is the concatenation |
| Magic.PlusOnNumbers | 0527/python/magic_method.py:24-26 | on numbers `+` is the sum, and commutative |
| Magic.PlusOnStringsNotCommutative | 0527/python/magic_method.py:24-26 | on string ages `+` is not commutative |
| Magic.Length | 0527/python/magic_method.py:36-38 | `len` is defined exactly on strings, where it is the number of characters |
| Magic.MagicMethodsExample.constructor | 0527/python/magic_method.py:7-10 | the object holds the given name and age |
| Magic.MagicMethodsExample.GetItem | 0527/python/magic_method.py:40-45 | `obj['name']` and `obj['age']` read the fields and any other key reads `None` |
| Magic.MagicMethodsExample.SetItem | 0527/python/magic_method.py:47-52 | assigning `name` or `age` changes that field only, any other key changes nothing, and then the key reads back the value while every other key reads as before |
| Magic.MagicMethodsExample.Enter | 0527/python/magic_method.py:54-57 | `with` binds the object itself |
| Magic.EqIffSameItems | 0527/python/magic_method.py:28-45 | `a == b` holds iff every key reads the same on both objects |
| Magic.EqEquivalence | 0527/python/magic_method.py:28-30 | `==` is reflexive, symmetric and transitive |
| Magic.LtOrdersByAge | 0527/python/magic_method.py:32-34 | `<` on objects is irreflexive and transitive, and replacing an object by one with the same age does not change it |
| Magic.AddSumsAges | 0527/python/magic_method.py:24-26 | with numeric ages, `a + b` is the sum of the ages and equals `b + a` |
| Magic.LenIsNameLength | 0527/python/magic_method.py:36-38 | `len(obj)` is the length of the name, and it raises `TypeError` when the name is not a string |
| Magic.DataProcessor.constructor | 0527/python/magic_method.py:64-66 | the processor holds the given data |
| Magic.DataProcessor.Iter | 0527/python/magic_method.py:76-78 | iteration starts a fresh iterator at the start of the data |
| Magic.ListIterator.Next | 0527/python/magic_method.py:76-78 | each step yields the next element in order, and `None` (end of iteration) once the data is exhausted |
| Magic.PrintItems | 0527/python/magic_method.py:83-85 | the guarded loop prints exactly the data in order, and prints something iff the processor is truthy |

## Left out

- I/O: the `display(HTML(...))` call, the printing in the scripts, the
  stdio transport of the weather server and `make_nws_request`'s network
  request, timeout and error logging. Each fetch result is an input.
- Display assets of the slide page: the CSS block, MathJax configuration
  and loading, and the `setTimeout` typesetting in `showSlide`. The
  navigation buttons are the methods `PrevSlide` and `NextSlide`.
- The Elasticsearch client: connecting to `hosts`, real analyze results,
  and the call results. `analyze_morph` is modelled up to the call it
  makes (`AnalyzeCall`), and `create_index` over the abstract `IndexStore`.
- The points URL of `get_weather_forecast` formats floats
  (`{latitude},{longitude}`); floats are not modelled, so the model starts
  from the points response.
- One deck per page: each `show_html_slides` call emits the ids
  `slide-1…` and redefines the global `currentSlide`, `totalSlides` and
  `showSlide`, so two decks in one notebook page interfere. `Navigator`
  models a single deck and cannot show that.
- The async-ness of the tools and the FastMCP registration.
- Json.Str: renders a list or a dict as a fixed placeholder rather than
  Python's `repr`, and has no floats. A field that is a container therefore
  shows a different text from Python's.
- `make_nws_request` can in principle return any JSON value; the model
  takes its declared result type, a dict or `None`.
- Weather.FirstFive: slicing a dict is a `TypeError` here. Python 3.12 and
  later raise `KeyError` instead, because slices became hashable.
- Weather.FormatAlertLines, Weather.FormatPeriodLines: state the line
  structure only for values whose text holds no newline. A value holding
  a newline spreads over more lines.
- Slide records whose `title` or `items` key is present with the value
  `None`: the model has a title or item list either present or absent.
  Items are strings inserted verbatim; Python's `str` of other item types
  is not modelled.
- Magic field values are `None`, integers and strings. Floats, booleans,
  bool/int equality and `+`/`<` on other types are not modelled.
- `DataProcessor.__call__` calls `self.process`, which no class defines.
  The usage line `result = processor()` therefore raises `AttributeError`
  before the loop is reached. The model covers the guarded loop on its
  own, as `PrintItems`.
- `__new__` only allocates and `__exit__` only prints. `__str__` and
  `__repr__` build display strings from the fields; they are not modelled.
  `__enter__` is modelled without its greeting.
- The list iterator does not track mutation of the list during iteration,
  since nothing mutates it.
