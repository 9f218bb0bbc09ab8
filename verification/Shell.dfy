/**
 How a POSIX shell reads a line, following sections 2.2.1, 2.2.2, 2.2.3, 2.3 and 2.6.7 of the Shell Command
 Language volume of POSIX.1-2017: token recognition and quote removal in one pass. A word is represented by
 its value after quote removal. Expansions are not performed: a line that asks for one has no reading here.
 */
module Shell {
  import opened Wrappers

  datatype Token = Word(value: string) | Operator(symbol: string)

  const BLANKS := " \t"
  const OPERATOR_STARTS := "|&;<>()\n"

  /** Every operator of two or more characters; the longest match is taken. */
  const LONG_OPERATORS: seq<string> := ["<<-", "&&", "||", ";;", "<<", ">>", "<&", ">&", "<>", ">|"]

  /** The length of the operator a line starts with. */
  function OperatorLength(line: string): (n: nat)
    requires line != "" && line[0] in OPERATOR_STARTS
    ensures 1 <= n <= |line|
  {
    if |line| >= 3 && line[..3] == "<<-" then 3
    else if |line| >= 2 && line[..2] in LONG_OPERATORS then 2
    else 1
  }

  /** The position of the first occurrence of a character, or the length of the line. */
  function Find(line: string, c: char): (n: nat)
    ensures n <= |line| && c !in line[..n] && (n < |line| ==> line[n] == c)
  {
    if line == "" || line[0] == c then 0 else 1 + Find(line[1..], c)
  }

  /** The word that ends where a token boundary is met, if one has been started. */
  function Ended(word: Option<string>): seq<Token> {
    match word
    case None => []
    case Some(value) => [Word(value)]
  }

  function Grown(word: Option<string>, more: string): Option<string> {
    Some((if word.Some? then word.value else "") + more)
  }

  function Before(tokens: seq<Token>, rest: Option<seq<Token>>): Option<seq<Token>> {
    match rest
    case None => None
    case Some(ts) => Some(tokens + ts)
  }

  /** The tokens of the rest of a line, `word` being the value so far of the word being read. */
  function Tokens(line: string, word: Option<string>): Option<seq<Token>>
    decreases |line|, 1
  {
    if line == "" then Some(Ended(word))
    else if line[0] == '\\' then
      if |line| == 1 then None
      else if line[1] == '\n' then Tokens(line[2..], word)
      else Tokens(line[2..], Grown(word, [line[1]]))
    else if line[0] == '\'' then
      var n := Find(line[1..], '\'');
      if n == |line| - 1 then None
      else Tokens(line[n + 2..], Grown(word, line[1..n + 1]))
    else if line[0] == '"' then DoubleQuoted(line[1..], Grown(word, ""))
    else if line[0] in "$`" then None
    else if line[0] in OPERATOR_STARTS then
      var n := OperatorLength(line);
      Before(Ended(word) + [Operator(line[..n])], Tokens(line[n..], None))
    else if line[0] in BLANKS then Before(Ended(word), Tokens(line[1..], None))
    else if line[0] == '#' && word.None? then Tokens(line[Find(line, '\n')..], None)
    else Tokens(line[1..], Grown(word, [line[0]]))
  }

  /** The tokens of the rest of a line that is inside double quotes. */
  function DoubleQuoted(line: string, word: Option<string>): Option<seq<Token>>
    decreases |line|, 0
  {
    if line == "" || line[0] in "$`" then None
    else if line[0] == '"' then Tokens(line[1..], word)
    else if line[0] == '\\' && |line| > 1 && line[1] in "$`\"\\" then DoubleQuoted(line[2..], Grown(word, [line[1]]))
    else if line[0] == '\\' && |line| > 1 && line[1] == '\n' then DoubleQuoted(line[2..], word)
    else DoubleQuoted(line[1..], Grown(word, [line[0]]))
  }

  /** The tokens of a whole line. */
  function Read(line: string): Option<seq<Token>> {
    Tokens(line, None)
  }
}
