/// The keystroke filter of the dimension inputs: control characters and
/// digits go through, a '.' goes through only while the text has none, and
/// every other character is blocked.
module UserInput {

  /** The position of the first occurrence of c in text, or -1. */
  function IndexOf(text: string, c: char): (i: int)
    ensures -1 <= i < |text|
    ensures i == -1 <==> c !in text
    ensures i >= 0 ==> text[i] == c && c !in text[..i]
  {
    if |text| == 0 then -1
    else if text[0] == c then 0
    else
      var j := IndexOf(text[1..], c);
      if j == -1 then -1
      else
        assert text[..j + 1] == [text[0]] + text[1..][..j];
        j + 1
  }

  /** The Handled flag after the handler saw key typed into text: it is set
      when the key is neither a control character nor a digit nor a first
      '.', and otherwise left as it was. isControl and isDigit are the
      platform's character classes. */
  function CheckNumberKeyPressed(handled: bool, key: char, text: string,
                                 isControl: char -> bool, isDigit: char -> bool): (r: bool)
    ensures handled ==> r
    ensures isControl(key) ==> r == handled
    ensures isDigit(key) ==> r == handled
    ensures key == '.' && !isControl(key) && !isDigit(key) ==> (r <==> handled || '.' in text)
    ensures key != '.' && !isControl(key) && !isDigit(key) ==> r
  {
    if !isControl(key) && !isDigit(key) && !(key == '.' && IndexOf(text, '.') == -1) then true
    else handled
  }

  /** The number of dots in s. */
  function Dots(s: string): nat
  {
    if |s| == 0 then 0 else Dots(s[..|s| - 1]) + (if s[|s| - 1] == '.' then 1 else 0)
  }

  lemma {:induction false} DotsAppend(a: string, b: string)
    ensures Dots(a + b) == Dots(a) + Dots(b)
    decreases |b|
  {
    if |b| == 0 {
      assert a + b == a;
    } else {
      assert (a + b)[..|a + b| - 1] == a + b[..|b| - 1];
      DotsAppend(a, b[..|b| - 1]);
    }
  }

  lemma {:induction false} NoDotsWithoutDot(s: string)
    requires '.' !in s
    ensures Dots(s) == 0
  {
    if |s| > 0 {
      NoDotsWithoutDot(s[..|s| - 1]);
    }
  }

  /** A key the handler lets through, typed anywhere into a text with at
      most one dot, leaves at most one dot: a second '.' is blocked. '.' is
      neither a control character nor a digit. */
  lemma AcceptedKeyKeepsOneDot(text: string, key: char, pos: nat,
                               isControl: char -> bool, isDigit: char -> bool)
    requires Dots(text) <= 1 && pos <= |text|
    requires !isControl('.') && !isDigit('.')
    requires !CheckNumberKeyPressed(false, key, text, isControl, isDigit)
    ensures Dots(text[..pos] + [key] + text[pos..]) <= 1
  {
    assert text == text[..pos] + text[pos..];
    DotsAppend(text[..pos], text[pos..]);
    DotsAppend(text[..pos], [key]);
    DotsAppend(text[..pos] + [key], text[pos..]);
    assert Dots([key]) == Dots([]) + (if key == '.' then 1 else 0);
    if key == '.' {
      NoDotsWithoutDot(text);
    }
  }
}
