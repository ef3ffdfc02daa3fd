# Filter expressions and locators, modelled in Dafny

This project models two parts of the taskwarrior command-line task manager.

**The filter-expression front end (`Expression`).** It turns a list of categorized command-line arguments into an infix list of domain (`dom`), operator (`op`) and expression (`exp`) entries. The stages run in this order:

1. `expand_sequence` folds every `id` and `uuid` argument into one algebraic `exp` entry, such as `(id=1 or id=3 or uuid="…")`.
2. `to_infix` rewrites each argument into a `dom`/`op`/`exp` triple. It inserts an implicit `and` between terms of old-style input, which is input with no operator among the original arguments. It throws on an unrecognized category.
3. `expand_expression` re-lexes each `exp` entry into tokens, each classified as `op` or `dom`.
4. `to_postfix` and `eval` are stubs.

**The locator (`Uri`).** It holds a path or a remote address, with these operations:

- Queries over the path: name, parent, extension, whether it is a directory, whether it is local.
- A conditional append.
- A parser that splits `proto://[user@]host[:port]/path` or the scp form `[user@]host:path` into fields, and throws when the path delimiter is missing.

## Layout

- `text.dfy`:
  - module `Results`: `Option` and `Result`.
  - module `Text`: the `std::string` searches (`find` of a character, `rfind`, `find` of a substring) and the stream formatting the core relies on (joining with a separator, decimal integers).
- `expression.dfy`, module `Expressions`:
  - a specification function for each stage (`Sequenced`, `Infix`, `Lexed`);
  - the lemmas about them;
  - the helper methods of `expand_sequence`;
  - class `Expression`, whose methods update `sequenced`, `infix` and `postfix` in place and are proved against those functions.
- `uri.dfy`, module `Locator`:
  - the specification of the parser (`Scheme`, `HostParts`, `ParseRemote`) and its lemmas;
  - class `Uri`, whose fields `Parse` and `Append` update in place.

The collaborators whose code is not part of this model become the function-valued fields of `Expressions.Collaborators`. They are:

- the `Arguments::extract_*` fragment extractors;
- `Arguments::is_operator`, and `is_operator` of the infix list;
- the lexer.

Argument categories, which the source spells as strings, become the datatype `Expressions.Category`. It has one constructor per name the file tests for (`id`, `uuid`, `tag`, `pattern`, `attribute`, `attmod`, `word`, `exp`, `op`, `dom`), and `Other` keeps any other name for the error message.

A thrown `std::string` becomes an `Option<string>` error result (`ToInfix`, `Build`, `Uri.Parse`, the `error` field of `Expression`) or the `Err` case of a `Result`.

### Where the code and its documentation disagree

The model follows the code in each of these cases:

- When no id or uuid is extracted, `expand_sequence` leaves the sequenced list empty. It does not pass the arguments through (`SequencedWithoutSequence`).
- After the first `id`/`uuid`, every later argument that is neither `id` nor `uuid` is kept, including arguments that come before a later `id`/`uuid`.
- Ids are listed one by one. No `id>=3 and id<=5` ranges are formed, although the comment above `expand_sequence` shows them (`SequenceTextExample`).
- With uuids but no ids, the sequence text begins with a dangling `( or ` (`SequenceTextWithoutIds`).
- `to_infix` throws on the categories `op` and `dom`. The `and` rule tests for `op`, but only the initial `op` of `previous` can ever match, so old-style input gets an `and` between every two arguments (`InfixOldStyle`).

## Model

| member | source | states |
|---|---|---|
| Expressions.Expression.constructor | src/Expression.cpp:38-45 | keeps the arguments and runs the four stages on them: the sequenced list is `Sequenced(arguments)`; a kept error is the message `Infix` throws; without one, `Infix` succeeds and the infix list is its lexed result; postfix ends empty |
| Expressions.Expression.Build | src/Expression.cpp:41-44 | after the four stages the sequenced list is `Sequenced(original)`. A returned error is the message `Infix` throws, and postfix is then untouched. Without an error, `Infix` succeeds, the infix list is its lexed result, and postfix is empty |
| Expressions.Expression.Eval | src/Expression.cpp:53-59 | every task matches |
| Expressions.Expression.ExpandSequence | src/Expression.cpp:66-139 | the sequenced list becomes `Sequenced(original)` |
| Expressions.Sequenced | src/Expression.cpp:66-139 | the definition of the sequenced list: empty when nothing is extracted, else the arguments before the first `id`/`uuid`, the sequence text as one `exp` entry, then every later non-`id`/`uuid` argument; its properties are the lemmas below |
| Expressions.SequenceText | src/Expression.cpp:88-111 | the definition of the sequence text: `(`, the id terms and then the uuid terms, each list joined by ` or ` and the two joined by ` or ` when there are uuids, then `)` |
| Expressions.CollectSequence | src/Expression.cpp:71-82 | returns the ids and uuids extracted from the `id` and `uuid` arguments, in argument order |
| Expressions.FormatSequence | src/Expression.cpp:88-111 | returns `SequenceText(ids, uuids)` |
| Expressions.FormatIds | src/Expression.cpp:91-97 | returns the `id=<i>` terms joined by ` or ` |
| Expressions.FormatUuids | src/Expression.cpp:99-109 | returns the `uuid="<u>"` terms joined by ` or ` |
| Expressions.CopyBeforeSequence | src/Expression.cpp:114-121 | returns the arguments before the first `id`/`uuid` |
| Expressions.CopyAfterSequence | src/Expression.cpp:126-135 | returns every non-`id`/`uuid` argument that comes after the first `id`/`uuid`, tracked by a found flag |
| Expressions.IdTermsExample | src/Expression.cpp:91-97 | ids 1, 3, 4, 5 give the four terms `id=1`, `id=3`, `id=4`, `id=5`: no range is formed |
| Expressions.FirstIndex | src/Expression.cpp:115-121 | the index where the copy loop breaks: nothing before it matches, and the element at it matches |
| Expressions.SeenIff | src/Expression.cpp:127-135 | the found flag of the copy loop is set exactly when an `id`/`uuid` has been seen |
| Expressions.SequencedWithoutSequence | src/Expression.cpp:69-86 | without `id`/`uuid` arguments the sequenced list is empty, not a copy of the input |
| Expressions.NothingExtracted | src/Expression.cpp:75-82 | without `id`/`uuid` arguments no id and no uuid is extracted |
| Expressions.SplitUnsequenced | src/Expression.cpp:114-135 | the part copied before the first `id`/`uuid` and the part copied after it make up all the other arguments, in order |
| Expressions.UnsequencedHasNone | src/Expression.cpp:126-135 | no `id`/`uuid` argument is copied |
| Expressions.SequencedShape | src/Expression.cpp:114-137 | the sequenced list holds the sequence text as an `exp` entry at the first `id`/`uuid` position; removing that entry leaves exactly the non-`id`/`uuid` arguments in their original order; no `id`/`uuid` entry remains |
| Expressions.SequenceTextExample | src/Expression.cpp:88-111 | ids 1, 3, 4, 5 and a uuid give `(id=1 or id=3 or id=4 or id=5 or uuid="<u>")`, one term per id |
| Expressions.SequenceTextWithoutIds | src/Expression.cpp:89-101 | with uuids but no ids the text begins `( or ` |
| Expressions.ModifierTable | src/Expression.cpp:187-250 | a modifier has an operator exactly when it is one of the fifteen the table names, and its literal is `""` exactly for `none` and `any` |
| Expressions.Expression.ExpandTag | src/Expression.cpp:145-155 | appends the tag term to the infix list |
| Expressions.Expression.ExpandAttr | src/Expression.cpp:161-171 | appends the attribute term to the infix list |
| Expressions.Expression.ExpandAttmod | src/Expression.cpp:177-251 | appends the term the modifier table gives, or nothing |
| Expressions.Expression.ExpandWord | src/Expression.cpp:257-262 | appends the word term to the infix list |
| Expressions.Expression.ExpandPattern | src/Expression.cpp:268-276 | appends the pattern term to the infix list |
| Expressions.FixedTerms | src/Expression.cpp:145-276 | a tag gives `tags`, an operator and the tag name, with `~` when the sign is `+` and `!~` otherwise; an attribute gives `name = value`; a word gives `description ~ word`; a pattern gives `description ~ pattern` |
| Expressions.AttmodTable | src/Expression.cpp:177-251 | a modifier of the table gives `name <op> literal` with the `""` literal for `none`/`any`, and the operator is `<` for before/under/below, `>` for after/over/above, `==` for none, `!=` for any/isnt/not, `=` for is/equals, `~` for has/contains, `!~` for hasnt; every other modifier, the unsupported ones included, gives nothing |
| Expressions.CategoryOf | src/Expression.cpp:349-375 | the category a name stands for gives that name back; only a name outside the ten the file tests for becomes `Other` |
| Expressions.CategoryNameRoundTrip | src/Expression.cpp:349-375 | every category `CategoryOf` can give is the one its own name stands for, so names and categories correspond one to one |
| Expressions.Expression.ExpandArgument | src/Expression.cpp:349-375 | recognizes exactly the categories `to_infix` accepts, and then appends that argument's expansion; otherwise it changes nothing and the caller throws |
| Expressions.Conjunction | src/Expression.cpp:341-347 | the definition of the implicit `and`: one `and` operator for old-style input when neither the previous nor the current category is `op`, else nothing |
| Expressions.Infix | src/Expression.cpp:330-381 | the definition of the infix list: argument by argument, the conjunction and then the expansion, or the message thrown at the first unrecognized category; its properties are `InfixFails` and the lemmas after it |
| Expressions.Expression.AddConjunction | src/Expression.cpp:341-347 | appends `and` exactly when the input is old style and neither the previous nor the current argument is an operator; otherwise nothing changes |
| Expressions.Expression.ConvertArgument | src/Expression.cpp:340-375 | one turn of the loop: given the conversion of the arguments before `i`, the list now holds the conversion of one more argument, or the result is the message thrown for its category |
| Expressions.Expression.ToInfix | src/Expression.cpp:330-381 | `Infix(sequenced, new style)` is `Ok` of the new infix list when no error is returned, and `Err` of the returned message otherwise |
| Expressions.Expression.IsNewStyle | src/Expression.cpp:434-442 | true exactly when some original argument's text is an operator |
| Expressions.InfixFails | src/Expression.cpp:351-375 | conversion fails exactly when some category is unrecognized (`op` and `dom` included); the message names the first one |
| Expressions.InfixFailureSticks | src/Expression.cpp:372-375 | once an argument throws, the whole conversion fails with that message |
| Expressions.InfixNewStyle | src/Expression.cpp:339-347 | new-style input gets no implicit `and`: the infix list is the expansions, one after the other |
| Expressions.InfixOldStyle | src/Expression.cpp:336-347 | old-style input gets `and` before every argument but the first |
| Expressions.InfixCategories | src/Expression.cpp:339-378 | every entry of the infix list is `dom`, `op` or `exp` |
| Expressions.Lexed | src/Expression.cpp:282-315 | the definition of lexing: each `exp` entry replaced by its classified tokens, every other entry kept, in order |
| Expressions.Expression.ExpandExpression | src/Expression.cpp:282-315 | the infix list becomes `Lexed(old infix)` |
| Expressions.ClassifyTokens | src/Expression.cpp:300-307 | returns `Classified(tokens)`: one entry per token, tagged by the infix list's operator test |
| Expressions.Classified | src/Expression.cpp:303-309 | one entry per token, in order, tagged `op` exactly when the token is an operator, else `dom` |
| Expressions.LexedAppend | src/Expression.cpp:287-311 | entries are lexed one by one: lexing a concatenation concatenates the lexed parts |
| Expressions.LexedKeeps | src/Expression.cpp:310-311 | entries other than `exp` are left unchanged |
| Expressions.LexedLeavesNoExpression | src/Expression.cpp:289-311 | no `exp` entry remains after lexing |
| Expressions.LexedCategories | src/Expression.cpp:287-311 | lexing an infix list leaves only `op` and `dom` entries |
| Expressions.Compiled | src/Expression.cpp:38-45 | whenever the stages succeed, the final infix list holds only `op` and `dom` entries |
| Expressions.Expression.ToPostfix | src/Expression.cpp:419-424 | the postfix list is cleared |
| Locator.Uri.constructor | src/Uri.cpp:34-36 | every field starts empty |
| Locator.Uri.Copy | src/Uri.cpp:39-50 | every field is copied |
| Locator.Uri.Assign | src/Uri.cpp:66-79 | every field takes the other's value, self-assignment included |
| Locator.Uri.Name | src/Uri.cpp:88-98 | the longest suffix of the path without `/`: the whole path when it has no `/`, else what follows the last `/` |
| Locator.Uri.Parent | src/Uri.cpp:101-111 | empty when the path has no `/`; otherwise parent, `/` and name put back together give the path |
| Locator.Uri.Extension | src/Uri.cpp:114-124 | what follows the last `.` of the path, or empty when there is none |
| Locator.Uri.IsDirectory | src/Uri.cpp:127-132 | the path is a directory exactly when it is `.` or its last component, as `Name` gives it, is empty (an empty path or one ending in `/`) |
| Locator.Uri.IsLocal | src/Uri.cpp:135-139 | local exactly when the data holds no `:` |
| Locator.Uri.Append | src/Uri.cpp:142-151 | appends to the path and returns true exactly when the path is a directory; otherwise it changes nothing |
| Locator.Uri.Parse | src/Uri.cpp:178-233 | local data becomes the path and nothing else changes. Otherwise every field is the `ParseRemote` result. On failure it returns the `Could not parse` message, with protocol and data from the scheme split and user and port reset |
| Locator.Scheme | src/Uri.cpp:190-204 | the definition of the scheme split: cut at the first `://` with delimiter `/`, else protocol `ssh`, all the data and delimiter `:` |
| Locator.HostParts | src/Uri.cpp:219-232 | the definition of the host split: the user ends at the first `@`, the port starts after the first `:` of the rest, a missing part is empty |
| Locator.ParseRemote | src/Uri.cpp:186-232 | the definition of `parse` on remote data: the scheme split, the cut at the first delimiter, and the host split, or the `Could not parse` message when the delimiter is missing |
| Locator.SplitScheme | src/Uri.cpp:190-205 | with `://` the protocol is the text before it, the rest the text after it, and the delimiter `/`; otherwise the protocol is `ssh`, the rest the whole data, and the delimiter `:` |
| Locator.SplitHost | src/Uri.cpp:219-232 | the user holds no `@` and the host holds no `:` |
| Locator.HostPartsReassemble | src/Uri.cpp:219-232 | the host segment is the user, `@` and the host-port part; that part is the host, `:` and the port |
| Locator.HostPartsSeparated | src/Uri.cpp:219-232 | the user holds no `@` and the host holds no `:`; a segment without `:` has an empty port |
| Locator.HostPartsRoundTrip | src/Uri.cpp:219-232 | the segment is rebuilt from user, host and port with the separators that were present |
| Locator.ParseRemoteReassembles | src/Uri.cpp:186-232 | the data after the scheme is the rebuilt host segment, the delimiter and the path; user and host hold neither separator nor the delimiter |
| Locator.ScpHasNoPort | src/Uri.cpp:199-232 | in scp form the protocol is `ssh` and the port is always empty |
| Locator.ParseFailsOnlyWithoutPath | src/Uri.cpp:207-217 | non-local data fails to parse exactly when it uses `://` and no `/` follows it |

## Left out

- Task records, the global `Context`, and debug output are not modelled: the `std::cout` line and the `dump` calls, including the empty `Expression::dump`.
- The lexer, the `Arguments::extract_*` extractors and both `is_operator` tests are not part of this model. They are parameters (`Collaborators`), so their own behaviour and any exception they throw are not modelled.
- The shunting-yard conversion to postfix and the evaluator are not modelled. The source has only a comment describing the algorithm and two stubs, modelled as stubs.
- Expressions.Expression.ToInfix: after a throw, the partially built infix list is left unconstrained. The object under construction is then abandoned.
- Expressions.Expression.constructor: the thrown message is kept in the field `error`; it does not abort construction, and the partly built lists stay readable.
- Expressions.Expression.constructor: arguments must carry canonical categories (`Other` never names one of the ten categories), which is what `CategoryOf` gives for every name.
- `Uri::expand` and the two-argument `Uri` constructor are not modelled, because they read process-wide configuration.
- Locator.Uri.AsString: the conversion to `std::string` is stated by its body alone.
- The `~Expression` and `~Uri` destructors have no model; they release nothing the model tracks.
- Ids are `int`; their decimal form is that of `operator<<` on an `int`, with no width limit.
