/** The console loops read lines until one is exactly "quit". */
module Session {

  const QuitCommand: string := "quit"

  /** The lines a console loop hands to the model: those before the first "quit". */
  function BeforeQuit(lines: seq<string>): seq<string> {
    if lines == [] || lines[0] == QuitCommand then [] else [lines[0]] + BeforeQuit(lines[1..])
  }

  /**
   * When lines[..i] holds no "quit" and line i is "quit" (or there are no
   * more lines), the loop hands exactly lines[..i] to the model.
   */
  lemma {:induction false} BeforeQuitAt(lines: seq<string>, i: nat)
    requires i <= |lines|
    requires forall k :: 0 <= k < i ==> lines[k] != QuitCommand
    requires i < |lines| ==> lines[i] == QuitCommand
    ensures BeforeQuit(lines) == lines[..i]
  {
    if i > 0 {
      BeforeQuitAt(lines[1..], i - 1);
      assert lines[..i] == [lines[0]] + lines[1..][..i - 1];
    }
  }

  /** What the loop hands on is a prefix of the input holding no "quit", cut just before the first one. */
  lemma {:induction false} BeforeQuitIsPrefix(lines: seq<string>)
    ensures |BeforeQuit(lines)| <= |lines| && BeforeQuit(lines) == lines[..|BeforeQuit(lines)|]
    ensures QuitCommand !in BeforeQuit(lines)
    ensures |BeforeQuit(lines)| < |lines| ==> lines[|BeforeQuit(lines)|] == QuitCommand
  {
    if lines != [] && lines[0] != QuitCommand {
      BeforeQuitIsPrefix(lines[1..]);
    }
  }

  /** While no "quit" has been seen, every line read so far is handed on. */
  lemma {:induction false} BeforeQuitKeeps(lines: seq<string>, i: nat)
    requires i <= |lines|
    requires forall k :: 0 <= k < i ==> lines[k] != QuitCommand
    ensures |BeforeQuit(lines)| >= i && BeforeQuit(lines)[..i] == lines[..i]
  {
    if i > 0 {
      BeforeQuitKeeps(lines[1..], i - 1);
      assert lines[..i] == [lines[0]] + lines[1..][..i - 1];
    }
  }
}
