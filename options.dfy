/** Functional options: `type Option func(*option)`. Applying an option to the
    settings struct in place is modelled as a function from settings to settings. */
module OptionFold {

  /** The settings that result from applying fs[0], fs[1], ... in that order to init. */
  function ApplyAll<T>(init: T, fs: seq<T -> T>): T
    decreases |fs|
  {
    if fs == [] then init else fs[|fs| - 1](ApplyAll(init, fs[..|fs| - 1]))
  }

  /** The loop `for _, op := range opts { op(&opt) }`. */
  method Fold<T>(init: T, fs: seq<T -> T>) returns (r: T)
    ensures r == ApplyAll(init, fs)
  {
    r := init;
    for k := 0 to |fs|
      invariant r == ApplyAll(init, fs[..k])
    {
      assert fs[..k + 1][..k] == fs[..k];
      r := fs[k](r);
    }
    assert fs[..|fs|] == fs;
  }

  /** Applying a list of options in two parts is applying the second part to the
      result of the first. */
  lemma {:induction false} ApplyAllConcat<T>(init: T, a: seq<T -> T>, b: seq<T -> T>)
    ensures ApplyAll(init, a + b) == ApplyAll(ApplyAll(init, a), b)
    decreases |b|
  {
    if b == [] {
      assert a + b == a;
    } else {
      assert (a + b)[..|a + b| - 1] == a + b[..|b| - 1];
      ApplyAllConcat(init, a, b[..|b| - 1]);
    }
  }
}
