/**
 * The table of editor languages (src/utils/language.ts): each entry has the identifier sent
 * to the execution service, a display name (`label`) and the template (`default`) shown in an empty editor.
 */
module Languages {
  import opened Options
  import opened Text

  datatype LanguageOption = LanguageOption(value: string, displayName: string, defaultCode: string)

  const Python := LanguageOption("python", "Python", "print(\"Hello, World!\")")
  const JavaScript := LanguageOption("javascript", "JavaScript", "console.log(\"Hello, World!\");")
  const TypeScript := LanguageOption("typescript", "TypeScript", "console.log(\"Hello, World!\");")
  const Java := LanguageOption("java", "Java",
    "public class Main {\n"
    + "    public static void main(String[] args) {\n"
    + "        System.out.println(\"Hello, World!\");\n"
    + "    }\n"
    + "}")
  const Cpp := LanguageOption("cpp", "C++",
    "#include <iostream>\n"
    + "\n"
    + "int main() {\n"
    + "    std::cout << \"Hello, World!\" << std::endl;\n"
    + "    return 0;\n"
    + "}")
  const C := LanguageOption("c", "C",
    "#include <stdio.h>\n"
    + "\n"
    + "int main() {\n"
    + "    printf(\"Hello, World!\\n\");\n"
    + "    return 0;\n"
    + "}")
  const CSharp := LanguageOption("csharp", "C#",
    "using System;\n"
    + "\n"
    + "class Program {\n"
    + "    static void Main() {\n"
    + "        Console.WriteLine(\"Hello, World!\");\n"
    + "    }\n"
    + "}")
  const Go := LanguageOption("go", "Go",
    "package main\n"
    + "\n"
    + "import \"fmt\"\n"
    + "\n"
    + "func main() {\n"
    + "    fmt.Println(\"Hello, World!\")\n"
    + "}")
  const Swift := LanguageOption("swift", "Swift", "print(\"Hello, World!\")")
  const R := LanguageOption("r", "R", "print(\"Hello, World!\")")
  const Sql := LanguageOption("sql", "SQL", "SELECT \"Hello, World!\" as greeting;")

  /** `languageOptions`, in the source's order. */
  const LanguageOptions: seq<LanguageOption> :=
    [Python, JavaScript, TypeScript, Java, Cpp, C, CSharp, Go, Swift, R, Sql]

  /**
   * `options.find(l => l.value === v)`: the index of the first entry whose value is `v`,
   * or None when there is none.
   */
  function FindIndex(options: seq<LanguageOption>, v: string): (r: Option<nat>)
    ensures r.Some? ==> r.value < |options| && options[r.value].value == v
    ensures r.Some? ==> forall j | 0 <= j < r.value :: options[j].value != v
    ensures r.None? <==> forall j | 0 <= j < |options| :: options[j].value != v
  {
    if options == [] then None
    else if options[0].value == v then Some(0)
    else match FindIndex(options[1..], v) {
      case None => None
      case Some(k) => Some(k + 1)
    }
  }

  /** `languageOptions.find(l => l.value === v)`. */
  function Find(v: string): (r: Option<LanguageOption>)
    ensures r.Some? <==> exists j | 0 <= j < |LanguageOptions| :: LanguageOptions[j].value == v
    ensures r.Some? ==> r.value in LanguageOptions && r.value.value == v
  {
    match FindIndex(LanguageOptions, v) {
      case None => None
      case Some(k) => Some(LanguageOptions[k])
    }
  }

  /** No two entries share a value, so `find` by value names one entry. */
  lemma ValuesDistinct()
    ensures forall i, j | 0 <= i < j < |LanguageOptions| :: LanguageOptions[i].value != LanguageOptions[j].value
  {
  }

  /** The value lookup finds each entry at its own position. */
  lemma FindEachEntry(i: nat)
    requires i < |LanguageOptions|
    ensures FindIndex(LanguageOptions, LanguageOptions[i].value) == Some(i)
  {
    ValuesDistinct();
  }

  /** The `javascript` entry exists and is the one at index 1, which the video chat starts from. */
  lemma JavaScriptEntry()
    ensures Find("javascript") == Some(JavaScript)
    ensures LanguageOptions[1] == JavaScript
  {
    FindEachEntry(1);
  }

  /** Every template has a non-whitespace character: installing one never yields a blank buffer. */
  lemma DefaultsNotBlank()
    ensures forall i | 0 <= i < |LanguageOptions| :: !IsBlank(LanguageOptions[i].defaultCode)
  {
    forall i | 0 <= i < |LanguageOptions| ensures !IsBlank(LanguageOptions[i].defaultCode) {
      assert !IsSpace(LanguageOptions[i].defaultCode[0]);
    }
  }

  /** Some templates coincide, so equality with a template does not identify its language. */
  lemma SharedDefaults()
    ensures JavaScript.defaultCode == TypeScript.defaultCode
    ensures Python.defaultCode == Swift.defaultCode == R.defaultCode
    ensures JavaScript.value != TypeScript.value && Python.value != Swift.value
  {
  }
}
