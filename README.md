# Code review request builder, modelled in Dafny

The repository is a thin wrapper that sends one source file to a hosted
language-model API and returns the markdown review. Its only logic lives in
`reviewer.py`, in class `CodeReviewService`. This project models that logic:

- Python's `str.strip()` and the truthiness of an `Optional[str]` (module `Text`, `text.dfy`);
- the user prompt built by `_build_prompt` and the fixed `_system_instructions`
  (module `Prompt`, `prompt.dfy`);
- credential and model resolution in `__init__`, the blank-code guard and the
  request/response handling of `review` (module `Reviewer`, `reviewer.dfy`);
- `Option` and `Result` datatypes (module `Wrappers`, `wrappers.dfy`).

Modelling choices:

- `IsSpace` accepts exactly the code points for which Python's `str.isspace()`
  holds, which are the ones `str.strip()` removes. No lemma depends on which
  characters these are.
- Python truthiness of an optional string is `Truthy`: present and non-empty.
- The process environment is a parameter `env: map<string, string>`. A variable
  that is set but empty maps to `""`, as `os.getenv` returns it.
- The client's `messages.create` call is a function parameter `transport`. It
  takes the API key the client holds and the `Request` (model, `max_tokens`,
  `temperature`, system text, messages) and returns a `Response` or an
  `ApiError`. `Review` also returns the request it would hand to the client,
  or `None` when the guard rejects the code. Since `transport` is a pure
  function, a call to it cannot be observed; what the contract guarantees on
  blank code is that the result does not depend on `transport` at all.
- Exceptions become `Result` values. `MissingAPIKeyError` is `ConfigError`.
  The `ValueError` for blank code is `InvalidInput`. A re-raised
  `APIError` is `ServiceFailure`, which carries the error unchanged.
- `__init__` can raise before any client exists, and a Dafny constructor cannot
  fail. So the static method `CodeReviewService.Create` resolves the key first.
  Only on success does it allocate the `Client` and the service. The service's
  fields are `const`, since nothing assigns them after construction.
- `_build_prompt` (reviewer.py:96-115) has no guard of its own; only `review`
  rejects blank code (reviewer.py:56-57), so `BuildPrompt` is total.

## Model

| member | source | states |
|---|---|---|
| Text.ContentStart | reviewer.py:56 | the position returned is the first one at or after the start of the scan that does not hold white space, or the end of the string when every remaining character is white space |
| Text.ContentEnd | reviewer.py:56 | the position returned is just past the last non-space character of the scanned range, or the start of the range when it is all white space |
| Text.Strip | reviewer.py:56 | the result is the slice of the input that starts after its leading white space; everything before and after it is white space; it has no white space at either end; it is empty exactly when the input is all white space |
| Text.StripUnique | reviewer.py:114 | for any all-space prefix and suffix around a core with no white space at its ends, stripping returns exactly that core |
| Text.StripIdempotent | reviewer.py:56-114 | stripping an already stripped string changes nothing |
| Prompt.BuildPrompt | reviewer.py:96-115 | every prompt starts with the same fixed preamble, whatever the code, filename, language and notes; what follows it is stated by `Prompt.PromptFrame` and the three line-presence lemmas |
| Prompt.PromptFrame | reviewer.py:113-114 | every prompt ends with `Code:\n` directly followed by the fence, the language tag or nothing, a newline, the stripped code, a newline and the closing fence |
| Prompt.FilenameLinePresence | reviewer.py:100-112 | right after the preamble the text starts with `Filename: ` exactly when a non-empty filename was given, and then with the whole line `Filename: <filename>\n`; the language line, the notes line and the code start right after that line's newline, or right after the preamble when there is no filename |
| Prompt.LanguageLinePresence | reviewer.py:101-112 | after the filename line, if any, the text starts with `Language: ` exactly when a non-empty language was given, and then with `Language: <language>\n`; the notes line and the code start right after that line's newline, or in its place when there is no language |
| Prompt.NotesLinePresence | reviewer.py:102-114 | after the language line, if any, the text starts with `Submitter notes: ` exactly when the notes as given are non-empty, and then with the label, the stripped notes and a newline; `Code:\n` and the fenced block start right after that newline, or in its place when the notes are absent or empty |
| Prompt.BlankNotesKeepTheirLine | reviewer.py:102 | notes made of white space only still yield the line `Submitter notes: \n` |
| Reviewer.GetEnv | reviewer.py:42-50 | a variable that is set yields its value, even when that value is empty; an unset variable yields nothing |
| Reviewer.ResolveApiKey | reviewer.py:42-46 | a non-empty explicit key wins, otherwise the `ANTHROPIC_API_KEY` value; the outcome is a key exactly when one of the two is present and non-empty, and the resolved key is never empty; otherwise the error is the missing-key error with its fixed message |
| Reviewer.ResolveModel | reviewer.py:49-50 | a non-empty explicit model wins, else the `ANTHROPIC_MODEL` value when the variable is set (possibly empty), else `claude-sonnet-4-5-20250929`; an empty result arises only from a set but empty variable |
| Reviewer.MapResponse | reviewer.py:79-84 | the text is the first content block's text, or the fixed empty-response placeholder when there is no block; the metadata copies input tokens, output tokens and model from the response |
| Reviewer.Client.constructor | reviewer.py:48 | the client holds the key it was created with |
| Reviewer.CodeReviewService.constructor | reviewer.py:43-50 | a service can only be built around a client holding a non-empty key, and it holds that client and the given model |
| Reviewer.CodeReviewService.Create | reviewer.py:41-50 | construction fails with the missing-key error exactly when key resolution fails, and then no client or service is allocated; otherwise a fresh client holds the resolved key and the service holds the resolved model |
| Reviewer.CodeReviewService.Review | reviewer.py:52-94 | blank code (all white space) yields the invalid-input error whatever the transport does, and no request is produced; otherwise exactly one request is sent with the service's model, 2000 max tokens, temperature 0, the system instructions and one user message holding the built prompt; a service error is passed through unchanged and a response is mapped by `MapResponse` |

## Left out

- The Anthropic SDK and its network call (reviewer.py:48, 63-74) are foreign code. The client is only the key it holds, and the call is the `transport` parameter.
- The `rich` console panels (reviewer.py:16-19, 60, 76, 86-92) only report progress.
- `load_dotenv` and the reads of the real process environment (reviewer.py:22, 42, 50): the environment is the `env` parameter.
- The wording of the preamble and of the system instructions (reviewer.py:105-111, 118-124) is kept as constants. No property of their prose is stated.
- `get_reviewer` (reviewer.py:127-129) only calls the constructor with no arguments, which is `Create(None, None, env)`.
- Reviewer.MapResponse: content blocks are modelled as text blocks only. A first block of another kind, which would raise `AttributeError` in Python, is not modelled.
- Token counts are non-negative integers, as the service reports them. Python's `int` would also admit negative counts.
- app.py is not part of this model: the Streamlit user interface, its caching, file decoding and the paste-or-upload choice.
