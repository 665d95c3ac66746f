/** The two texts sent to the completion service for one review: the user prompt
    built from the submitted code and its optional metadata, and the fixed system
    instructions (`CodeReviewService._build_prompt` and `_system_instructions`). */
module Prompt {
  import opened Wrappers
  import opened Text

  /** The fixed instructions every prompt opens with; their wording is not
      reasoned about. */
  const Preamble: string :=
    "You are reviewing a single code file uploaded by a developer. " +
    "Return your feedback in Markdown with:\n" +
    "1. A concise summary of the code's intent and overall quality.\n" +
    "2. A prioritized list of actionable findings grouped by severity.\n" +
    "3. Specific code references (line numbers if available) and concrete suggestions.\n" +
    "4. Optional improvement ideas if time allows.\n\n" +
    "Only mention what you directly observe and avoid repeating requirements.\n\n"

  /** The persona and output layout sent as the system message; its wording is
      not reasoned about. */
  const SystemInstructions: string :=
    "You are a senior software engineer. " +
    "Review a single file at a time. Do not use emojis. " +
    "Review based on the following metrics: Code accuracy, code optimality, security vulnerabilities, standard coding conventions, code quality. " +
    "Format the response consisting of 5 sections for each of these metrics. Split each section into 3 categories: Major issues, Minor issues, What it does well. " +
    "Only include the category if something is found in that category, do not list the categpry if nothing was found, like no major issues, or nothing was done well, etc."

  const FilenameLabel: string := "Filename: "
  const LanguageLabel: string := "Language: "
  const NotesLabel: string := "Submitter notes: "
  const CodeHeading: string := "Code:\n"
  const Fence: string := "```"

  function FilenameLine(filename: Option<string>): string {
    if Truthy(filename) then FilenameLabel + filename.value + "\n" else ""
  }

  function LanguageLine(language: Option<string>): string {
    if Truthy(language) then LanguageLabel + language.value + "\n" else ""
  }

  /** Gated on the notes as given, but printing them stripped. */
  function NotesLine(notes: Option<string>): string {
    if Truthy(notes) then NotesLabel + Strip(notes.value) + "\n" else ""
  }

  /** The tag after the opening fence: the language, or nothing. */
  function LanguageTag(language: Option<string>): string {
    if Truthy(language) then language.value else ""
  }

  /** The fenced block holding the stripped code. */
  function CodeBlock(code: string, language: Option<string>): string {
    Fence + LanguageTag(language) + "\n" + Strip(code) + "\n" + Fence
  }

  /** The user prompt for one review; whatever the inputs, it opens with the
      same preamble. */
  function BuildPrompt(code: string, filename: Option<string>, language: Option<string>,
                       notes: Option<string>): (p: string)
    ensures Preamble <= p
  {
    Preamble + (FilenameLine(filename) + (LanguageLine(language) + (NotesLine(notes) +
      (CodeHeading + CodeBlock(code, language)))))
  }

  /** Every prompt closes with the code heading and the fenced block, whatever
      the metadata. */
  lemma PromptFrame(code: string, filename: Option<string>, language: Option<string>,
                    notes: Option<string>)
    ensures var p, tail := BuildPrompt(code, filename, language, notes), CodeHeading + CodeBlock(code, language);
      |tail| <= |p| && p[|p| - |tail|..] == tail
  {
    var tail := CodeHeading + CodeBlock(code, language);
    Framed(Preamble, FilenameLine(filename), LanguageLine(language), NotesLine(notes), tail);
  }

  /** `head + (f + (l + (n + tail)))` ends with `tail`. */
  lemma Framed(head: string, f: string, l: string, n: string, tail: string)
    ensures var p := head + (f + (l + (n + tail)));
      |tail| <= |p| && p[|p| - |tail|..] == tail
  {
  }

  /** The text of a prompt that follows its preamble. */
  function AfterPreamble(p: string): string
    requires Preamble <= p
  {
    p[|Preamble|..]
  }

  /** Where each part of `head + (f + (l + (n + tail)))` begins once `head` is
      taken off. */
  lemma Layout(head: string, f: string, l: string, n: string, tail: string)
    ensures var rest := (head + (f + (l + (n + tail))))[|head|..];
      rest == f + (l + (n + tail)) && rest[|f|..] == l + (n + tail) &&
      rest[|f|..][|l|..] == n + tail
  {
  }

  /** Text made of a line that is either the whole `tag + content + "\n"` or
      nothing, followed by text that cannot start like `tag`: it starts with
      `tag` exactly when the line is there, and the later text follows the line
      directly. */
  lemma OptionalLine(rest: string, tag: string, content: string, present: bool, later: string)
    requires tag != [] && later != [] && later[0] != tag[0]
    requires rest == (if present then tag + content + "\n" else "") + later
    ensures present <==> tag <= rest
    ensures present ==> tag + content + "\n" <= rest
    ensures present ==> rest[|tag| + |content| + 1..] == later
    ensures !present ==> rest == later
  {
  }

  /** The filename line comes first after the preamble exactly when a non-empty
      filename was given; otherwise nothing there starts like one. */
  lemma FilenameLinePresence(code: string, filename: Option<string>, language: Option<string>,
                             notes: Option<string>)
    ensures var rest := AfterPreamble(BuildPrompt(code, filename, language, notes));
      (Truthy(filename) <==> FilenameLabel <= rest) &&
      (Truthy(filename) ==> FilenameLabel + filename.value + "\n" <= rest) &&
      var later := LanguageLine(language) + (NotesLine(notes) + (CodeHeading + CodeBlock(code, language)));
      (Truthy(filename) ==> rest[|FilenameLabel| + |filename.value| + 1..] == later) &&
      (!Truthy(filename) ==> rest == later)
  {
    var l, n, tail := LanguageLine(language), NotesLine(notes), CodeHeading + CodeBlock(code, language);
    var later := l + (n + tail);
    var rest := AfterPreamble(BuildPrompt(code, filename, language, notes));
    assert rest == FilenameLine(filename) + later by {
      Layout(Preamble, FilenameLine(filename), l, n, tail);
    }
    assert later != [] && later[0] != FilenameLabel[0] by {
      if l != [] {
        assert later[0] == l[0] == 'L';
      } else if n != [] {
        assert later[0] == n[0] == 'S';
      } else {
        assert later[0] == tail[0] == 'C';
      }
    }
    OptionalLine(rest, FilenameLabel, if Truthy(filename) then filename.value else "", Truthy(filename), later);
  }

  /** Next comes the language line, exactly when a non-empty language was given. */
  lemma LanguageLinePresence(code: string, filename: Option<string>, language: Option<string>,
                             notes: Option<string>)
    ensures var rest := AfterPreamble(BuildPrompt(code, filename, language, notes))[|FilenameLine(filename)|..];
      (Truthy(language) <==> LanguageLabel <= rest) &&
      (Truthy(language) ==> LanguageLabel + language.value + "\n" <= rest) &&
      var later := NotesLine(notes) + (CodeHeading + CodeBlock(code, language));
      (Truthy(language) ==> rest[|LanguageLabel| + |language.value| + 1..] == later) &&
      (!Truthy(language) ==> rest == later)
  {
    var n, tail := NotesLine(notes), CodeHeading + CodeBlock(code, language);
    var later := n + tail;
    var rest := AfterPreamble(BuildPrompt(code, filename, language, notes))[|FilenameLine(filename)|..];
    assert rest == LanguageLine(language) + later by {
      Layout(Preamble, FilenameLine(filename), LanguageLine(language), n, tail);
    }
    assert later != [] && later[0] != LanguageLabel[0] by {
      if n != [] {
        assert later[0] == n[0] == 'S';
      } else {
        assert later[0] == tail[0] == 'C';
      }
    }
    OptionalLine(rest, LanguageLabel, if Truthy(language) then language.value else "", Truthy(language), later);
  }

  /** Next comes the notes line, exactly when the notes as given are non-empty;
      it carries the stripped notes, and the code heading follows directly. */
  lemma NotesLinePresence(code: string, filename: Option<string>, language: Option<string>,
                          notes: Option<string>)
    ensures var rest := AfterPreamble(BuildPrompt(code, filename, language, notes))
                          [|FilenameLine(filename)|..][|LanguageLine(language)|..];
      (Truthy(notes) <==> NotesLabel <= rest) &&
      (Truthy(notes) ==> NotesLabel + Strip(notes.value) + "\n" <= rest) &&
      var later := CodeHeading + CodeBlock(code, language);
      (Truthy(notes) ==> rest[|NotesLabel| + |Strip(notes.value)| + 1..] == later) &&
      (!Truthy(notes) ==> rest == later)
  {
    NotesSlot(code, filename, language, notes);
    var later := CodeHeading + CodeBlock(code, language);
    var rest := AfterPreamble(BuildPrompt(code, filename, language, notes))
                  [|FilenameLine(filename)|..][|LanguageLine(language)|..];
    OptionalLine(rest, NotesLabel, if Truthy(notes) then Strip(notes.value) else "", Truthy(notes), later);
  }

  /** After the filename and language lines come the notes line and then the
      code heading. */
  lemma NotesSlot(code: string, filename: Option<string>, language: Option<string>,
                  notes: Option<string>)
    ensures var rest := AfterPreamble(BuildPrompt(code, filename, language, notes))
                          [|FilenameLine(filename)|..][|LanguageLine(language)|..];
      var later := CodeHeading + CodeBlock(code, language);
      rest == NotesLine(notes) + later && later != [] && later[0] != NotesLabel[0]
  {
    var later := CodeHeading + CodeBlock(code, language);
    Layout(Preamble, FilenameLine(filename), LanguageLine(language), NotesLine(notes), later);
  }

  /** Notes made only of white space still produce a notes line, with nothing
      after the label. */
  lemma BlankNotesKeepTheirLine(code: string, filename: Option<string>, language: Option<string>,
                                notes: string)
    requires notes != "" && AllSpace(notes)
    ensures var rest := AfterPreamble(BuildPrompt(code, filename, language, Some(notes)))
                          [|FilenameLine(filename)|..][|LanguageLine(language)|..];
      NotesLabel + "\n" <= rest
  {
    assert Strip(notes) == [];
    assert NotesLabel + Strip(notes) + "\n" == NotesLabel + "\n";
    NotesLinePresence(code, filename, language, Some(notes));
  }
}
