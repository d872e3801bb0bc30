/**
  The two pieces of the .NET base library the handlers lean on when they test a
  session key: Char.IsWhiteSpace and String.IsNullOrWhiteSpace.
 */
module NetText {
  import opened Wrappers

  /**
    Char.IsWhiteSpace: the Unicode space, line and paragraph separators
    (categories Zs, Zl, Zp) together with the control characters U+0009 to
    U+000D and U+0085.
   */
  predicate IsWhiteSpace(c: char) {
    || ('\U{0009}' <= c <= '\U{000D}')
    || c == '\U{0020}' || c == '\U{0085}' || c == '\U{00A0}' || c == '\U{1680}'
    || ('\U{2000}' <= c <= '\U{200A}')
    || c == '\U{2028}' || c == '\U{2029}' || c == '\U{202F}' || c == '\U{205F}'
    || c == '\U{3000}'
  }

  /** The scan String.IsNullOrWhiteSpace makes over a non-null string. */
  function AllWhiteSpace(s: string): (r: bool)
    ensures r <==> forall i | 0 <= i < |s| :: IsWhiteSpace(s[i])
  {
    if s == [] then true
    else
      assert forall i | 1 <= i < |s| :: s[i] == s[1..][i - 1];
      IsWhiteSpace(s[0]) && AllWhiteSpace(s[1..])
  }

  /** String.IsNullOrWhiteSpace on a string reference that may be null. */
  function IsNullOrWhiteSpace(s: Option<string>): (r: bool)
    ensures r <==> (s == None || forall i | 0 <= i < |s.value| :: IsWhiteSpace(s.value[i]))
    ensures s == Some("") ==> r
  {
    match s
    case None => true
    case Some(v) => AllWhiteSpace(v)
  }

  /** One character that is not white space is enough for a string to pass the test. */
  lemma NonWhiteSpaceCharPasses(s: string, i: nat)
    requires i < |s| && !IsWhiteSpace(s[i])
    ensures !IsNullOrWhiteSpace(Some(s))
  {
  }

  /** Padding a string with white space never changes the outcome of the test. */
  lemma {:induction false} PaddingIsIrrelevant(pad: string, s: string, pad': string)
    requires AllWhiteSpace(pad) && AllWhiteSpace(pad')
    ensures IsNullOrWhiteSpace(Some(pad + s + pad')) == IsNullOrWhiteSpace(Some(s))
  {
    var t := pad + s + pad';
    assert forall i | 0 <= i < |s| :: t[|pad| + i] == s[i];
    if !AllWhiteSpace(s) {
      var i :| 0 <= i < |s| && !IsWhiteSpace(s[i]);
      NonWhiteSpaceCharPasses(t, |pad| + i);
    } else {
      forall i | 0 <= i < |t| ensures IsWhiteSpace(t[i]) {
        if i < |pad| {
          assert t[i] == pad[i];
        } else if i < |pad| + |s| {
          assert t[i] == s[i - |pad|];
        } else {
          assert t[i] == pad'[i - |pad| - |s|];
        }
      }
    }
  }
}
