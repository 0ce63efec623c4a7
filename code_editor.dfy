/**
 * The executable code editor (src/components/EnhancedCodeEditor.tsx): a text buffer with a
 * language selector, a Tab key that inserts two spaces, template swapping on a language
 * change, and a Run button guarded against re-entry. The execution service is not modelled:
 * its answer is a parameter of the method that finishes a run.
 */
module CodeEditor {
  import opened Options
  import opened Text
  import opened Languages

  /** The option the editor starts on: the requested language if the table has it, else JavaScript. */
  function ResolveLanguage(requested: Option<string>): (o: LanguageOption)
    ensures o in LanguageOptions
    ensures var v := if requested.Some? then requested.value else "javascript";
      && ((exists j | 0 <= j < |LanguageOptions| :: LanguageOptions[j].value == v) ==> o.value == v)
      && ((forall j | 0 <= j < |LanguageOptions| :: LanguageOptions[j].value != v) ==> o == JavaScript)
  {
    // `initialLanguage = 'javascript'` is the prop's default; `find(...)!` the fallback.
    var v := if requested.Some? then requested.value else "javascript";
    match Find(v) {
      case Some(o) => o
      case None => JavaScriptEntry(); Find("javascript").value
    }
  }

  /** `initialCode || defaultLanguage.default`: an absent or empty `initialCode` is falsy. */
  function InitialCode(initialCode: Option<string>, option: LanguageOption): (code: string)
    ensures initialCode.Some? && initialCode.value != "" ==> code == initialCode.value
    ensures initialCode.None? || initialCode.value == "" ==> code == option.defaultCode
  {
    match initialCode {
      case Some(c) => if c != "" then c else option.defaultCode
      case None => option.defaultCode
    }
  }

  /** JavaScript's `s.substring(a, b)`: both ends clamped to the string, swapped when reversed. */
  function Substring(s: string, a: nat, b: nat): (r: string)
    ensures |r| <= |s|
    ensures a <= b <= |s| ==> r == s[a..b]
    ensures b <= a <= |s| ==> r == s[b..a]
    ensures a <= |s| <= b ==> r == s[a..]
    ensures b <= |s| <= a ==> r == s[b..]
    ensures |s| <= a && |s| <= b ==> r == ""
  {
    var lo, hi := if a <= |s| then a else |s|, if b <= |s| then b else |s|;
    if lo <= hi then s[lo..hi] else s[hi..lo]
  }

  /** The buffer after Tab: `code.substring(0, start) + '  ' + code.substring(end)`. */
  function TabSplice(code: string, start: nat, end: nat): string {
    Substring(code, 0, start) + "  " + Substring(code, end, |code|)
  }

  /** The template installed for a newly chosen language: `languageOption?.default || ''`. */
  function TemplateFor(language: string): (t: string)
    ensures Find(language).Some? ==> t == Find(language).value.defaultCode
    ensures Find(language).None? ==> t == ""
  {
    match Find(language) {
      case Some(o) => o.defaultCode
      case None => ""
    }
  }

  /** Whether a language change replaces the buffer: it is blank, or still the initial language's template. */
  predicate SwapsTemplate(code: string, initialDefault: string) {
    IsBlank(code) || code == initialDefault
  }

  /** The buffer after a language change. */
  function CodeAfterLanguageChange(code: string, initialDefault: string, newLanguage: string): string {
    if SwapsTemplate(code, initialDefault) then TemplateFor(newLanguage) else code
  }

  /** The value `executeCode` settles with. */
  datatype ExecutionResult = ExecutionResult(stdout: Option<string>, stderr: Option<string>, exitCode: Option<int>)

  /** What is thrown: an `Error` carries a message; anything else is shown through `String(error)`. */
  datatype Thrown = ErrorObject(message: string) | OtherValue(asString: string)

  datatype ExecOutcome = Executed(result: ExecutionResult) | Failed(thrown: Thrown)

  /** The two arguments of `onExecuteComplete(output, error)`; None stands for `null`. */
  datatype Completion = Completion(output: Option<ExecutionResult>, error: Option<string>)

  /** The callback arguments for a finished run: (result, null) on success, (null, message) on failure. */
  function CompletionFor(outcome: ExecOutcome): (c: Completion)
    ensures c.output.Some? != c.error.Some?
    ensures outcome.Executed? ==> c == Completion(Some(outcome.result), None)
    ensures outcome.Failed? && outcome.thrown.ErrorObject? ==> c.error == Some(outcome.thrown.message)
    ensures outcome.Failed? && outcome.thrown.OtherValue? ==> c.error == Some(outcome.thrown.asString)
  {
    match outcome {
      case Executed(r) => Completion(Some(r), None)
      case Failed(ErrorObject(m)) => Completion(None, Some(m))
      case Failed(OtherValue(s)) => Completion(None, Some(s))
    }
  }

  // ------------------------------------------------------------------
  // Properties of the pure parts.
  // ------------------------------------------------------------------

  /**
   * With a selection inside the buffer, Tab replaces the selection by two spaces: the text
   * before and after is kept and the length changes by 2 - (end - start).
   */
  lemma TabSpliceReplacesSelection(code: string, start: nat, end: nat)
    requires start <= end <= |code|
    ensures var r := TabSplice(code, start, end);
      && r == code[..start] + "  " + code[end..]
      && |r| == |code| - (end - start) + 2
      && r[..start] == code[..start]
      && r[start..start + 2] == "  "
      && r[start + 2..] == code[end..]
  {
    var r := TabSplice(code, start, end);
    assert Substring(code, 0, start) == code[..start];
    assert Substring(code, end, |code|) == code[end..];
    assert r[..start] == code[..start];
    assert r[start + 2..] == code[end..];
  }

  /** Changing language from a blank buffer to a language of the table installs a non-blank template. */
  lemma BlankBufferGetsTemplate(code: string, initialDefault: string, newLanguage: string)
    requires IsBlank(code)
    requires Find(newLanguage).Some?
    ensures !IsBlank(CodeAfterLanguageChange(code, initialDefault, newLanguage))
  {
    DefaultsNotBlank();
  }

  /** An edited, non-blank buffer survives every language change. */
  lemma EditedBufferKept(code: string, initialDefault: string, newLanguage: string)
    requires !IsBlank(code) && code != initialDefault
    ensures CodeAfterLanguageChange(code, initialDefault, newLanguage) == code
  {
  }

  /**
   * The comparison is with the initial language's template, not the previous one's:
   * starting in JavaScript, switching to Python installs Python's template, and switching on
   * to Java then keeps Python's template in the buffer.
   */
  lemma SecondChangeKeepsFirstTemplate()
    ensures var afterPython := CodeAfterLanguageChange(JavaScript.defaultCode, JavaScript.defaultCode, "python");
      && afterPython == Python.defaultCode
      && CodeAfterLanguageChange(afterPython, JavaScript.defaultCode, "java") == Python.defaultCode
  {
    FindEachEntry(0);
    FindEachEntry(3);
    assert !IsSpace(Python.defaultCode[0]);
    assert Python.defaultCode[0] != JavaScript.defaultCode[0];
  }

  /** The editor's state: `language`, `code` and `isExecuting`, and the template it started with. */
  class Editor {
    /** `defaultLanguage.default`: fixed by the props the editor was created with. */
    const initialDefault: string
    var language: string
    var code: string
    var isExecuting: bool

    constructor (initialLanguage: Option<string>, initialCode: Option<string>)
      ensures initialDefault == ResolveLanguage(initialLanguage).defaultCode
      ensures language == ResolveLanguage(initialLanguage).value
      ensures code == InitialCode(initialCode, ResolveLanguage(initialLanguage))
      ensures !isExecuting
    {
      var option := ResolveLanguage(initialLanguage);
      initialDefault := option.defaultCode;
      language := option.value;
      code := InitialCode(initialCode, option);
      isExecuting := false;
    }

    /** handleLanguageChange; returns the value passed to `onChange`, if any. */
    method ChangeLanguage(newLanguage: string) returns (notified: Option<string>)
      modifies this
      ensures language == newLanguage && isExecuting == old(isExecuting)
      ensures code == CodeAfterLanguageChange(old(code), initialDefault, newLanguage)
      ensures notified == if SwapsTemplate(old(code), initialDefault) then Some(code) else None
    {
      language := newLanguage;
      if SwapsTemplate(code, initialDefault) {
        code := TemplateFor(newLanguage);
        notified := Some(code);
      } else {
        notified := None;
      }
    }

    /** handleCodeChange: the buffer becomes what was typed, and `onChange` receives it. */
    method ChangeCode(newCode: string) returns (notified: string)
      modifies this
      ensures code == newCode && notified == newCode
      ensures language == old(language) && isExecuting == old(isExecuting)
    {
      code := newCode;
      notified := newCode;
    }

    /**
     * handleTabKey on a key press with the given selection. For Tab it returns the new cursor
     * position and the value passed to `onChange`; any other key changes nothing.
     */
    method KeyDown(key: string, selectionStart: nat, selectionEnd: nat)
      returns (cursor: Option<nat>, notified: Option<string>)
      modifies this
      ensures language == old(language) && isExecuting == old(isExecuting)
      ensures key == "Tab" ==>
        code == TabSplice(old(code), selectionStart, selectionEnd)
        && cursor == Some(selectionStart + 2) && notified == Some(code)
      ensures key != "Tab" ==> code == old(code) && cursor == None && notified == None
    {
      if key == "Tab" {
        code := TabSplice(code, selectionStart, selectionEnd);
        cursor := Some(selectionStart + 2);
        notified := Some(code);
      } else {
        cursor, notified := None, None;
      }
    }

    /**
     * The synchronous part of runCode: when a run is in progress nothing happens; otherwise
     * the editor becomes busy and the request (language, code) goes to the execution service.
     */
    method StartRun() returns (request: Option<(string, string)>)
      modifies this
      ensures language == old(language) && code == old(code)
      ensures old(isExecuting) ==> request == None && isExecuting
      ensures !old(isExecuting) ==> request == Some((language, code)) && isExecuting
    {
      if isExecuting {
        return None;
      }
      isExecuting := true;
      request := Some((language, code));
    }

    /** The rest of runCode, once the service answered: the callback's arguments, and `finally` clears the flag. */
    method FinishRun(outcome: ExecOutcome) returns (completion: Completion)
      requires isExecuting
      modifies this
      ensures !isExecuting
      ensures language == old(language) && code == old(code)
      ensures completion == CompletionFor(outcome)
    {
      completion := CompletionFor(outcome);
      isExecuting := false;
    }
  }
}
