/**
 * Conversation turns and the prompt built from them (app.py, agent_chat step 4).
 *
 * A session's history is an ordered sequence of turns. Before each call to the
 * language model the whole history is flattened into one prompt string: every
 * turn becomes a line "<Role capitalised>: <content>" and the lines are joined
 * with "\n", oldest first, with no truncation.
 */
module Conversation {

  /** Who spoke a turn; stored in the history under the strings "user" / "assistant". */
  datatype Role = User | Assistant

  /** One recorded utterance of a session. */
  datatype Turn = Turn(role: Role, content: string)

  /** The role string kept in the history dictionary. */
  function RoleName(r: Role): string
  {
    match r
    case User => "user"
    case Assistant => "assistant"
  }

  function UpperAscii(c: char): char
  {
    if 'a' <= c <= 'z' then (c as int - 32) as char else c
  }

  function LowerAscii(c: char): char
  {
    if 'A' <= c <= 'Z' then (c as int + 32) as char else c
  }

  /** The string method `capitalize`: first character upper case, all others lower case (ASCII letters). */
  function Capitalize(s: string): (r: string)
    ensures |r| == |s|
    ensures |s| > 0 ==> r[0] == UpperAscii(s[0])
    ensures forall i :: 0 < i < |s| ==> r[i] == LowerAscii(s[i])
  {
    if s == [] then []
    else [UpperAscii(s[0])] + seq(|s| - 1, i requires 0 <= i < |s| - 1 => LowerAscii(s[i + 1]))
  }

  /** One line of the prompt. */
  function RenderTurn(t: Turn): string
  {
    Capitalize(RoleName(t.role)) + ": " + t.content
  }

  /** `"\n".join(lines)`. */
  function Join(lines: seq<string>): string
  {
    if |lines| == 0 then ""
    else if |lines| == 1 then lines[0]
    else lines[0] + "\n" + Join(lines[1..])
  }

  /** `s.split("\n")`: the pieces between newline characters, at least one. */
  function Split(s: string): (parts: seq<string>)
    ensures |parts| >= 1
  {
    if s == [] then [""]
    else
      var rest := Split(s[1..]);
      if s[0] == '\n' then [""] + rest
      else [[s[0]] + rest[0]] + rest[1..]
  }

  /** The rendered lines of a history, in history order. */
  function Lines(history: seq<Turn>): (lines: seq<string>)
    ensures |lines| == |history|
    ensures forall i :: 0 <= i < |history| ==> lines[i] == RenderTurn(history[i])
  {
    seq(|history|, i requires 0 <= i < |history| => RenderTurn(history[i]))
  }

  /** The text sent to the language model: the whole history, one line per turn. */
  function Prompt(history: seq<Turn>): string
  {
    Join(Lines(history))
  }

  /** No turn content contains a line break, so each turn is exactly one prompt line. */
  predicate SingleLineContents(history: seq<Turn>)
  {
    forall i :: 0 <= i < |history| ==> '\n' !in history[i].content
  }

  /** The two role labels that can appear in a prompt. */
  lemma RoleLabels()
    ensures Capitalize(RoleName(User)) == "User"
    ensures Capitalize(RoleName(Assistant)) == "Assistant"
  {
  }

  /** A rendered turn is its label, a colon and a space, then its content verbatim. */
  lemma RenderTurnShape(t: Turn)
    ensures RenderTurn(t) == (if t.role == User then "User: " else "Assistant: ") + t.content
  {
  }

  /** Joining one more line extends the joined text by a newline and that line. */
  lemma {:induction false} JoinAppend(lines: seq<string>, line: string)
    requires lines != []
    ensures Join(lines + [line]) == Join(lines) + "\n" + line
  {
    if |lines| == 1 {
      assert (lines + [line])[1..] == [line];
    } else {
      assert (lines + [line])[1..] == lines[1..] + [line];
      JoinAppend(lines[1..], line);
    }
  }

  /** Appending a turn to a non-empty history appends exactly one line to its prompt. */
  lemma PromptAppend(history: seq<Turn>, t: Turn)
    ensures Prompt([t]) == RenderTurn(t)
    ensures history != [] ==> Prompt(history + [t]) == Prompt(history) + "\n" + RenderTurn(t)
  {
    if history != [] {
      assert Lines(history + [t]) == Lines(history) + [RenderTurn(t)];
      JoinAppend(Lines(history), RenderTurn(t));
    }
  }

  lemma {:induction false} SplitSingleLine(w: string)
    requires '\n' !in w
    ensures Split(w) == [w]
  {
    if w != [] {
      SplitSingleLine(w[1..]);
      assert [w[0]] + w[1..] == w;
    }
  }

  lemma {:induction false} SplitFirstLine(w: string, rest: string)
    requires '\n' !in w
    ensures Split(w + "\n" + rest) == [w] + Split(rest)
  {
    var s := w + "\n" + rest;
    if w == [] {
      assert s[1..] == rest;
    } else {
      assert s[1..] == w[1..] + "\n" + rest;
      SplitFirstLine(w[1..], rest);
      assert [w[0]] + w[1..] == w;
    }
  }

  /** Splitting a join of single-line pieces gives the pieces back. */
  lemma {:induction false} SplitJoin(lines: seq<string>)
    requires |lines| >= 1
    requires forall i :: 0 <= i < |lines| ==> '\n' !in lines[i]
    ensures Split(Join(lines)) == lines
  {
    if |lines| == 1 {
      SplitSingleLine(lines[0]);
    } else {
      SplitJoin(lines[1..]);
      SplitFirstLine(lines[0], Join(lines[1..]));
    }
  }

  /**
   * No truncation, no reordering: when contents are single lines, the prompt
   * read back line by line is exactly the rendered history, one line per turn.
   */
  lemma PromptLines(history: seq<Turn>)
    requires history != []
    requires SingleLineContents(history)
    ensures Split(Prompt(history)) == Lines(history)
    ensures |Split(Prompt(history))| == |history|
  {
    forall i | 0 <= i < |history|
      ensures '\n' !in Lines(history)[i]
    {
      RenderTurnShape(history[i]);
    }
    SplitJoin(Lines(history));
  }
}
