/** The optional-value datatype used throughout the model. */
module Wrappers {

  datatype Option<+T> = None | Some(value: T)

  /** The zero- or one-element sequence holding the value of `o`. */
  function OptionToSeq<T>(o: Option<T>): (s: seq<T>)
    ensures |s| <= 1
    ensures o.Some? <==> |s| == 1
    ensures o.Some? ==> s[0] == o.value
  {
    if o.Some? then [o.value] else []
  }

  /** `a` followed by the value of `o`, if there is one. */
  function AppendOption<T>(a: seq<T>, o: Option<T>): seq<T> {
    if o.Some? then a + [o.value] else a
  }

  /** Appending an option and then `b` is prepending the option's sequence to `b`. */
  lemma AppendOptionThen<T>(a: seq<T>, o: Option<T>, b: seq<T>)
    ensures AppendOption(a, o) + b == a + (OptionToSeq(o) + b)
  {
    if o.None? {
      assert OptionToSeq(o) + b == b;
    }
  }
}
