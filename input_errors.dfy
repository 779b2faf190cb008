/// The text shown to the user when the dimensions are refused: a fixed
/// header followed by every error, each closed by a blank line.
module InputErrors {

  /** The fixed header of the message, as the source spells it (including
      its stray "[][[" and the space after the first line break). */
  const Header: string := "Ошибка при вводе пользователем. \n [][[Пожалуйста, проверьте эти данные: \n\n"

  /** The text the errors contribute: each error verbatim, followed by
      "\n\n", in list order. */
  function Listing(errors: seq<string>): string
  {
    if |errors| == 0 then ""
    else Listing(errors[..|errors| - 1]) + errors[|errors| - 1] + "\n\n"
  }

  /** Builds the message as the source's loop does, appending one error and
      its blank line per step. */
  method CatchError(errors: seq<string>) returns (errorMessage: string)
    ensures errorMessage == Header + Listing(errors)
    ensures errorMessage[..|Header|] == Header
    ensures |errorMessage| == |Header| + TotalLength(errors)
    ensures errors == [] ==> errorMessage == Header
  {
    errorMessage := Header;
    var i := 0;
    while i < |errors|
      invariant 0 <= i <= |errors|
      invariant errorMessage == Header + Listing(errors[..i])
    {
      assert errors[..i + 1][..i] == errors[..i];
      errorMessage := errorMessage + errors[i] + "\n\n";
      i := i + 1;
    }
    assert errors[..i] == errors;
    ListingLength(errors);
  }

  /** The sum over the errors of their length plus two. */
  function TotalLength(errors: seq<string>): nat
  {
    if |errors| == 0 then 0
    else TotalLength(errors[..|errors| - 1]) + |errors[|errors| - 1]| + 2
  }

  /** The listing of two lists one after the other is the two listings one
      after the other. */
  lemma {:induction false} ListingAppend(a: seq<string>, b: seq<string>)
    ensures Listing(a + b) == Listing(a) + Listing(b)
    decreases |b|
  {
    if |b| == 0 {
      assert a + b == a;
    } else {
      var c := b[..|b| - 1];
      assert (a + b)[..|a + b| - 1] == a + c;
      ListingAppend(a, c);
    }
  }

  /** Every error adds its own length and two for its blank line. */
  lemma {:induction false} ListingLength(errors: seq<string>)
    ensures |Listing(errors)| == TotalLength(errors)
  {
    if |errors| > 0 {
      ListingLength(errors[..|errors| - 1]);
    }
  }

  /** An empty error list yields exactly the header. */
  lemma EmptyListIsHeader()
    ensures Header + Listing([]) == Header
  {
  }

  /** The two middle pieces of h + ((l + (e + t)) + q), by position. */
  lemma SlicesOf(h: string, l: string, e: string, t: string, q: string)
    ensures var m := h + ((l + (e + t)) + q);
            var at := |h| + |l|;
            at + |e| + |t| <= |m|
            && m[at..at + |e|] == e
            && m[at + |e|..at + |e| + |t|] == t
  {
    var m := h + ((l + (e + t)) + q);
    var at := |h| + |l|;
    assert forall k :: 0 <= k < |e| ==> m[at..at + |e|][k] == m[at + k] == e[k];
    assert forall k :: 0 <= k < |t| ==> m[at + |e|..at + |e| + |t|][k] == m[at + |e| + k] == t[k];
  }

  /** Error i appears verbatim right after the header and the listing of
      the errors before it, and is followed by "\n\n". */
  lemma ErrorPlacement(errors: seq<string>, i: nat)
    requires i < |errors|
    ensures var message := Header + Listing(errors);
            var at := |Header| + TotalLength(errors[..i]);
            at + |errors[i]| + 2 <= |message|
            && message[at..at + |errors[i]|] == errors[i]
            && message[at + |errors[i]|..at + |errors[i]| + 2] == "\n\n"
  {
    PlacementAfter(Header, errors, i);
  }

  lemma ListingOne(e: string)
    ensures Listing([e]) == e + "\n\n"
  {
    assert [e][..0] == [];
  }

  /** ErrorPlacement for any header h. */
  lemma PlacementAfter(h: string, errors: seq<string>, i: nat)
    requires i < |errors|
    ensures var message := h + Listing(errors);
            var at := |h| + TotalLength(errors[..i]);
            at + |errors[i]| + 2 <= |message|
            && message[at..at + |errors[i]|] == errors[i]
            && message[at + |errors[i]|..at + |errors[i]| + 2] == "\n\n"
  {
    var rest := errors[i + 1..];
    assert errors == (errors[..i] + [errors[i]]) + rest;
    ListingAppend(errors[..i] + [errors[i]], rest);
    ListingAppend(errors[..i], [errors[i]]);
    ListingOne(errors[i]);
    assert Listing(errors) == (Listing(errors[..i]) + (errors[i] + "\n\n")) + Listing(rest);
    ListingLength(errors[..i]);
    SlicesOf(h, Listing(errors[..i]), errors[i], "\n\n", Listing(rest));
  }
}
