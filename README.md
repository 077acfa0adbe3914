# pysimplecli core, modelled in Dafny

pysimplecli turns a Python function into a command-line program. It reads the
function's parameters and the comments written beside them. It splits `argv`
into positional tokens and `--name=value` options. It binds those to the
parameters, checking each value against the parameter's type annotation. It
prints a help text built from the parameters and the function's docstring.

This project models the core of `simplecli/simplecli.py`:

- the `Param` record, as a class: its derived attributes (`required`, `optional`,
  `help_name`, `help_type`, `value`, `datatypes`), `validate`, `set_value`,
  `set_value_as_seq`, `_set_description` and `parse_or_prepend`;
- `clean_args`;
- `params_to_kwargs`, with `missing_params_msg` and `check_for_unexpected_args`;
- `help_text`;
- `format_docstring`;
- `process_comment` and `extract_code_params`.

Each operation that changes state or loops in the source is a method with its loop.
Each is proved against a pure specification function, and the promised properties
are proved about those functions as lemmas.

Files, one module each:

- `wrappers.dfy`: `Option` and `Result`.
- `text.dfy`: the string helpers Python provides (`strip`, `splitlines`, `\s`, `str.join`).
- `numerals.dfy`: `int()` and `float()` acceptance of text, and `str()` of an int.
- `types.dfy`: annotations, values, and calling a type object on a raw value.
- `params.dfy`: `Param`.
- `args.dfy`: `clean_args` and the insertion-ordered dict.
- `binder.dfy`: `params_to_kwargs` and its helpers.
- `binding.dfy`: what `params_to_kwargs` promises.
- `help.dfy`: `help_text`.
- `docstring.dfy`: `format_docstring`.
- `extract.dfy`: `process_comment` and `extract_code_params`.

Where the code and its documentation disagree, the model follows the code:

- An `Optional[T]` parameter with no default and nothing bound has the value
  `Empty`, not `None` (`Params.OptionalWithoutDefaultIsEmpty`).
- `extract_code_params` returns only the parameters whose name it meets as a NAME
  token before the scan stops. A parameter it never meets is dropped, not appended
  (`Extract.ExtractedOrder`).
- A bare `--flag` on a union annotation containing `bool` converts the marker with
  each member type. It does not invert the default.
- `format_docstring` removes at most two columns of indentation, because
  `minimum_indent` starts at 2. It is not a full dedent.

## Model

| member | source | states |
|---|---|---|
| Numerals.IntRoundTrip | simplecli/simplecli.py:227-229 | `int()` reads back every integer's decimal text as that integer |
| Types.Convert | simplecli/simplecli.py:224-231 | calling a type object on a raw value: a result has that type; `bool` and `str` always accept; `NoneType` and `Empty` never do; the bare-flag marker converts only to `bool` or `str` |
| Params.HelpName | simplecli/simplecli.py:164-166 | `help_name` is the name with every underscore replaced by a hyphen, and nothing else changed |
| Params.RequiredIffNoFallback | simplecli/simplecli.py:139-156 | for a parameter that is not internal or optional and keeps `required=True`: required exactly when `value` has nothing to fall back on |
| Params.OptionalWithoutDefaultIsEmpty | simplecli/simplecli.py:158-162 | an `Optional[T]` parameter without a default is optional and not required, and its unbound value is `Empty` |
| Params.SequenceValidates | simplecli/simplecli.py:219-232 | for a list or set annotation, `validate` accepts exactly what the element type converts |
| Params.LastConversion | simplecli/simplecli.py:243-250 | union binding keeps the conversion by the last member type that does not raise; there is one exactly when some member converts |
| Params.SetValueOutcome | simplecli/simplecli.py:234-255 | `set_value`: "must be of type" exactly when no non-None type accepts; "requires a value" for a bare flag on a non-bool, non-union parameter; otherwise a value of one of the annotation's types; the union rule; a bare flag on `bool` binds True with no default, else `not default` |
| Params.ConvertAllSpec | simplecli/simplecli.py:262-267 | converting a list of tokens fails exactly when one token fails, and otherwise keeps each converted token in place |
| Params.SeqValueOutcome | simplecli/simplecli.py:257-268 | `set_value_as_seq` fails with "must be of type" exactly when some token does not validate; a list keeps every converted token in order; a set holds exactly the converted tokens |
| Params.CleanComment | simplecli/simplecli.py:185-188 | the stored description starts and ends with no whitespace |
| Params.CleanCommentMarker | simplecli/simplecli.py:188 | a line made of whitespace, "#", at least one whitespace character and a text is stored as that text stripped |
| Params.CleanCommentPlain | simplecli/simplecli.py:188 | a line whose text after its leading whitespace does not open with "#" and whitespace is stored as that text stripped, "#" included |
| Params.CleanCommentWord | simplecli/simplecli.py:188 | the comment "# " and a word with no whitespace at either end is stored as exactly that word |
| Params.DescribeFrom | simplecli/simplecli.py:190-210 | with `overwrite=False` and a description, nothing changes and the result is False; the result is True exactly when the line has a comment and tokenizing did not fail; a comment on the line replaces the description, and one that cleans to nothing empties it; the prepended comment then fills an empty description |
| Params.Param.constructor | simplecli/simplecli.py:64-93 | the declaration and value are stored; an empty description is taken from the line's comment |
| Params.Param.Validate | simplecli/simplecli.py:219-232 | the loop returns True exactly when some non-None type of the annotation converts the value |
| Params.Param.SetValue | simplecli/simplecli.py:234-255 | binds what `SetValueOutcome` gives, or returns its message and leaves the bound value as it was; the description is unchanged |
| Params.Param.SetValueAsSeq | simplecli/simplecli.py:257-268 | binds what `SeqValueOutcome` gives, or returns its message and leaves an empty list bound |
| Params.Param.SetDescription | simplecli/simplecli.py:185-188 | an existing description is kept unless forced; otherwise it becomes the cleaned line, whose two cases `CleanCommentMarker` and `CleanCommentPlain` state |
| Params.Param.ParseOrPrepend | simplecli/simplecli.py:190-210 | the new description and the returned flag are those `DescribeFrom` gives; the bound value is unchanged |
| Args.Dict.Put | simplecli/simplecli.py:316 | dict assignment: the key holds the value; a new key goes last; an existing key keeps its place |
| Args.PutKeepsOthers | simplecli/simplecli.py:316 | dict assignment leaves every other key and its value as they were |
| Args.FlagValue | simplecli/simplecli.py:308-314 | the optional `=(.+)` group: a value is non-empty and has no newline |
| Args.MatchFlag | simplecli/simplecli.py:308 | the pattern matches exactly the tokens starting "--" and a `[\w-]` character; the key is non-empty and made of word characters |
| Args.CleanArgs | simplecli/simplecli.py:304-317 | the loop returns the positional list and the named dict that `Positionals` and `Named` define |
| Args.PositionalsSpec | simplecli/simplecli.py:307-311 | the positional list distributes over concatenation of argv, so tokens keep their order |
| Args.PositionalsMembers | simplecli/simplecli.py:307-311 | a token is positional exactly when it is in argv and does not match the pattern |
| Args.NamedSpec | simplecli/simplecli.py:312-316 | a name is a key exactly when some token names it, and it holds the value of its last occurrence |
| Args.NamedKeyOrder | simplecli/simplecli.py:316 | the keys are in the order of each name's first occurrence |
| Args.MatchFlagSplit | simplecli/simplecli.py:308 | "--", a run of flag characters and a rest that does not continue it match with that run as the name |
| Args.HelpNameBack | simplecli/simplecli.py:164-166 | turning the hyphens of `help_name` back into underscores gives the name |
| Args.FlagValueText | simplecli/simplecli.py:308 | "=" and a non-empty value with no newline yield that value |
| Args.FlagRoundTrip | simplecli/simplecli.py:304-316 | `--<help_name>=v` is read back as v under the parameter's own name |
| Args.BareFlagRoundTrip | simplecli/simplecli.py:304-316 | a bare `--<help_name>` yields the DefaultIfBool marker under the parameter's own name |
| Args.TrailingTextIgnored | simplecli/simplecli.py:308 | the match is anchored only at the start: text after the name that does not begin with "=" is ignored |
| Binder.MissingLines | simplecli/simplecli.py:333-336 | one line per missing parameter: "  --", its help name, and two spaces and its description when it has one |
| Binder.MissingParamsMsg | simplecli/simplecli.py:326-337 | a heading, plural exactly when more than one parameter is missing, then the lines in order |
| Binder.FirstUnexpected | simplecli/simplecli.py:320-323 | none exactly when every key names a parameter; otherwise the first key in dict order that does not |
| Binder.CheckForUnexpectedArgs | simplecli/simplecli.py:320-323 | no error exactly when every key names a parameter; otherwise the exit message for the first key that does not |
| Binder.FirstUnexpectedAt | simplecli/simplecli.py:320-323 | the key at i is the one reported when it is the first that names no parameter |
| Binder.NameValues | simplecli/simplecli.py:372 | the pairs (name, value) of the parameters, in order |
| Binder.KwargsDict | simplecli/simplecli.py:372 | the comprehension builds the dict of those pairs |
| Binder.FinishDecls | simplecli/simplecli.py:370-372 | the end of `params_to_kwargs` reads only the parameters' declarations and their bound values |
| Binder.ScanStopped | simplecli/simplecli.py:346-362 | after a ValueError, no later parameter changes and nothing else is recorded |
| Binder.BindParam | simplecli/simplecli.py:348-360 | one iteration binds what `Step` gives and reports the tokens left, whether the parameter is missing, and any failure |
| Binder.BindAll | simplecli/simplecli.py:345-362 | the loop leaves the bound values, tokens left, missing parameters and failure that `Scan` describes; descriptions are unchanged |
| Binder.BindNext | simplecli/simplecli.py:347-360 | one more iteration extends the `Scan` of the parameters before it |
| Binder.ScanNext | simplecli/simplecli.py:347-360 | `Scan` over one more parameter runs one iteration on it |
| Binder.ScanRest | simplecli/simplecli.py:346-362 | once the loop has failed, or has covered every parameter, the rest keep their values |
| Binder.Conclude | simplecli/simplecli.py:370-372 | the last part reports the first unexpected name or returns the dict |
| Binder.ParamsToKwargs | simplecli/simplecli.py:340-372 | returns or ends exactly as `Outcome` says; the parameters end with the values `Scan` binds and their descriptions unchanged |
| Binding.ScanLast | simplecli/simplecli.py:347-360 | the loop over all parameters is the loop over all but the last, then one iteration on the last |
| Binding.StepPos | simplecli/simplecli.py:349-355 | one iteration takes no positional token, the first one, or all of them |
| Binding.StepBinds | simplecli/simplecli.py:349-360 | a required parameter that the iteration does not report missing and that does not fail is bound to something other than `Empty` |
| Binding.ScanPrefix | simplecli/simplecli.py:345-362 | the loop never undoes its work: the values bound to earlier parameters are final, tokens only get used up, and missing parameters are only appended |
| Binding.PositionalsInOrder | simplecli/simplecli.py:347-358 | with no list or set parameter and no failure, parameter i takes token i; past the tokens, a truthy named value under its name, else it keeps its value; the tokens left are those past the last parameter |
| Binding.ScanLastPositional | simplecli/simplecli.py:349-358 | the last iteration on a parameter that is not a list or set takes the next token if there is one, else a truthy named value, else keeps its value |
| Binding.SequenceTakesTheRest | simplecli/simplecli.py:349-352 | a list or set parameter takes every token still unused, and none is left over |
| Binding.TooManyPositionals | simplecli/simplecli.py:364-365 | with no list or set parameter, more tokens than parameters end in "Too many positional arguments!" unless a value fails first |
| Binding.MissingRequired | simplecli/simplecli.py:359-360 | every parameter reported missing is required, and every required parameter is reported missing or is bound to something other than `Empty` |
| Binding.DictOfDistinct | simplecli/simplecli.py:372 | storing pairs with distinct keys keeps every key, in order, with its own value |
| Binding.KwargsOf | simplecli/simplecli.py:372 | with distinct names, the dict's keys are the names in declaration order, each holding that parameter's value |
| Binding.OutcomeOkCases | simplecli/simplecli.py:361-372 | a dict is returned only when no value failed, no token is left, nobody is missing and every name is known |
| Binding.OutcomeOk | simplecli/simplecli.py:340-372 | a returned dict has exactly the parameter names as keys, in declaration order, with their values; every named argument names a parameter; every required parameter has a value |
| Help.HelpWidth | simplecli/simplecli.py:285 | the width is that of the longest help name |
| Help.OptionLines | simplecli/simplecli.py:286-297 | one option line per parameter, in order |
| Help.RequiredNames | simplecli/simplecli.py:284-288 | a name is listed exactly when it is the help name of a required parameter |
| Help.HelpText | simplecli/simplecli.py:275-301 | the text is "Usage:", the usage line, a blank line, the description block when there is a docstring, "Options:" and the option lines, joined with newlines |
| Help.Options | simplecli/simplecli.py:286-297 | the loop builds the option lines and the required help names |
| Help.PrefixNext | simplecli/simplecli.py:286-297 | one more parameter adds its option line and, when it is required, its help name |
| Help.OptionLineOf | simplecli/simplecli.py:289-297 | the loop body builds that parameter's option line |
| Help.JoinBrackets | simplecli/simplecli.py:298-300 | `"[" + "] [".join(names) + "]"` puts each name in its own brackets, separated by spaces |
| Help.UsageLists | simplecli/simplecli.py:298-300 | the usage line lists exactly the required parameters, each in brackets |
| Help.OptionLineLayout | simplecli/simplecli.py:289-291 | every option line starts with "  --" and the help name, then spaces, so that the description and default start at column width + 6 |
| Help.Padded | simplecli/simplecli.py:289-291 | "  --" and the help name are padded with spaces to width + 6 characters |
| Help.DefaultShown | simplecli/simplecli.py:294-296 | the default is shown exactly when it is an int, float or str, as " (Default: …)" at the end of the line |
| Docstring.FirstContent | simplecli/simplecli.py:387-394 | the first line with content; every line before it is blank |
| Docstring.ContentEnd | simplecli/simplecli.py:389-396 | the end of the last line with content; every line after it is blank |
| Docstring.ShiftWidth | simplecli/simplecli.py:385-391 | the shift is at most 2, at most the indent of every line with content, and 2 or that indent of one such line |
| Docstring.KeptEnd | simplecli/simplecli.py:399 | the slice end is at or past the first line with content |
| Docstring.Shifted | simplecli/simplecli.py:398 | every line loses its first m characters, and a shorter line becomes empty |
| Docstring.FormatDocstring | simplecli/simplecli.py:375-399 | returns what `Formatted` defines: the error for a tab, else the kept lines, shifted, joined with newlines |
| Docstring.Scan | simplecli/simplecli.py:383-396 | the loop finds the first line with content, the number of trailing blank lines and the shift width |
| Docstring.KeptTrimmed | simplecli/simplecli.py:383-399 | the kept lines begin and end with a line with content; none are kept exactly when every line is blank; every line with content is kept |
| Docstring.FormattedKept | simplecli/simplecli.py:398-399 | a docstring without tabs formats to its kept lines, each shifted, joined with newlines |
| Docstring.ShiftCutsOnlyIndent | simplecli/simplecli.py:385-398 | on a line with content the shift cuts only whitespace, and the rest of the line is kept whole |
| Text.LeadingSpaceSpans | simplecli/simplecli.py:388 | what `\s*` matches at the start of a line is whitespace |
| Text.StripCuts | simplecli/simplecli.py:188 | `strip()` returns the slice of its argument between a whitespace prefix and a whitespace suffix |
| Text.StripSkipsSpace | simplecli/simplecli.py:188 | whitespace in front of a text does not change what `strip()` returns |
| Extract.HintsOf | simplecli/simplecli.py:495-496 | every parameter name is a hint, mapped to that parameter's position |
| Extract.Describe | simplecli/simplecli.py:190-210 | `parse_or_prepend` on one parameter changes only that parameter's description |
| Extract.CommentStep | simplecli/simplecli.py:473-484 | `process_comment` changes at most a description and the pending comment, never which parameters are appended or pending |
| Extract.Step | simplecli/simplecli.py:503-527 | one iteration breaks exactly on a late comment; it changes only descriptions |
| Extract.NameStep | simplecli/simplecli.py:513-522 | a NAME still in the hints pops it and appends its parameter to the order |
| Extract.Extracted | simplecli/simplecli.py:494-530 | at the end no parameter is pending; only descriptions changed |
| Extract.StopAt | simplecli/simplecli.py:504-506 | the first comment ending after the parameter list |
| Extract.MentionsOrder | simplecli/simplecli.py:513-519 | first mentions: exactly the hinted names some NAME spells, in the order of their first NAME token |
| Extract.StepOrder | simplecli/simplecli.py:509-527 | one iteration adds to the order only the parameter a hinted NAME names, and pops that name |
| Extract.RunOrder | simplecli/simplecli.py:503-527 | the scan adds the hinted names in the order of their first NAME token |
| Extract.RunStops | simplecli/simplecli.py:504-506 | tokens after the first late comment change nothing |
| Extract.RunTouches | simplecli/simplecli.py:503-527 | the order only grows, and only the descriptions of parameters in it change |
| Extract.ExtractedNames | simplecli/simplecli.py:494-530 | the returned parameters are, by name, the first mentions in the tokens before the first late comment |
| Extract.ExtractedOrder | simplecli/simplecli.py:494-530 | a parameter is returned exactly when a NAME token before the stop spells its name, in the order of the first such token |
| Extract.ExtractedStops | simplecli/simplecli.py:504-506 | a comment ending after the parameter list ends the scan: the result is that of the tokens before it |
| Extract.ExtractedDistinct | simplecli/simplecli.py:513-519 | no parameter is returned twice |
| Extract.ExtractedTouches | simplecli/simplecli.py:494-530 | only the descriptions of returned parameters change |
| Extract.PendingClosed | simplecli/simplecli.py:509-527 | a newline or a hinted NAME appends the pending parameter; any other token leaves it pending |
| Extract.DescribeAt | simplecli/simplecli.py:190-210 | `parse_or_prepend` on one of the parameters changes that parameter's state as `Describe` says, and no other |
| Extract.ProcessComment | simplecli/simplecli.py:473-484 | updates the parameters and returns the pending comment as `CommentStep` says, whose attribution `CommentAttribution` states |
| Extract.CommentAttribution | simplecli/simplecli.py:473-484 | with no pending parameter a comment goes to the last appended one and the pending comment is cleared: a comment on its line replaces the description, or, when it cleans to nothing, the comment itself does; with no comment on the line the comment only fills an empty description. With a pending one it goes there without overwriting a description already set, an empty one being filled from the line's comment or else the comment itself, and is kept as the pending comment; before any parameter it only becomes the pending comment; no other parameter changes |
| Extract.NameOnCommentedLine | simplecli/simplecli.py:513-527 | a hinted NAME with nothing pending, on a line with a comment, describes its parameter from that line and appends it at once |
| Extract.Ignored | simplecli/simplecli.py:511-524 | a token of another kind, a NAME with no hint left, or a newline with nothing pending leaves the scan as it was |
| Extract.TrailingCommentDescribes | simplecli/simplecli.py:494-530 | for the parameter list `foo: int,  # note` then `bar: int,`, both parameters are returned in order, foo described as `note` and bar unchanged |
| Extract.ExtractCodeParams | simplecli/simplecli.py:494-530 | returns the parameters at the positions `Extracted` appends, and leaves every parameter with the state it describes |
| Extract.Iteration | simplecli/simplecli.py:503-527 | one iteration on a token that is not a late comment does what `Step` says |
| Extract.TakeToken | simplecli/simplecli.py:509-527 | a newline, a hinted NAME or another token does what `Step` says |

## Left out

- `wrap` is not part of this model: it reads `sys.argv` and the function's globals, sets a module flag, calls `exit` and reads source files.
- `code_to_ordered_params` is not part of this model. Its output, the ordered parameters, is an input of `ExtractCodeParams`.
- `function_def_end` (`ast.parse`) and `tokenize_string` (Python's tokenizer) are not part of this model. They become inputs:
  - `fdEnd`;
  - the token sequence;
  - `LineTokens`, what tokenizing one line yields, where a `TokenError` is its `failed` flag.
- `validate_annotation` is not modelled as such. `Supported` accepts what it accepts among the annotations the model can write: a plain scalar or `Empty`, and any union, list or set of them. An unsupported annotation (a plain `None`) makes the constructor's precondition false, so no `Param` exists for it.
- `Params.Param.constructor`: annotations nested inside a union, list or set (`list[list[int]]`, `Union[int, list[str]]`) and `type[...]` annotations, which `validate_annotation` also accepts, cannot be written in the `Annotation` datatype.
- `Param.__eq__` and `Param.__str__`: debugging and test conveniences.
- A `TypeError` raised while converting a value (for example `NoneType(x)`) is modelled as a failed conversion, not as an escaping exception.
- Floats: a float is kept as the literal it was read from. The model decides only whether `float()` accepts a text and whether it is zero. Numeric normalisation and the printing of floats (`1e3` shown as `1000.0`) are not modelled. The help text shows a float default as its literal.
- `\w` is taken as ASCII letters, digits and underscore; Unicode word characters are not modelled.
- `Types.Convert`: `int()` and `float()` accept only ASCII digits here. Python also reads other Unicode decimal digits (`int("٣") == 3`); the model treats such text as a ValueError.
- `os.linesep` is taken to be "\n".
- `Binder.ParamsToKwargs`: the caller's positional list, which `params_to_kwargs` empties in place, is a value here. The caller never reads it again.
- `Params.Param.SetValue`: requires a non-list, non-set annotation. `params_to_kwargs` never calls it on one. The source would call `list(value)` on the raw text there.
- `Binding.OutcomeOk`, `Binding.KwargsOf`: require distinct parameter names, which Python's function signatures guarantee.
- `Extract.ExtractCodeParams`: popping from `hints` and `ordered_params` is one map from each remaining name to its parameter's position. The ordered parameters stay a list.
- `Help.HelpText`: requires at least one parameter, because `max()` of an empty list raises.
