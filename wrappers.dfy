/** Optional values: `None` stands for a missing JSON member, or for a call that raised. */
module Wrappers {

  datatype Option<+T> = None | Some(value: T)

  /** True when `s` ends with `suffix`. */
  predicate EndsWith(s: string, suffix: string) {
    |suffix| <= |s| && s[|s| - |suffix|..] == suffix
  }

  /** A suffix of the last part is a suffix of the whole. */
  lemma EndsWithAppend(prefix: string, last: string, suffix: string)
    requires EndsWith(last, suffix)
    ensures EndsWith(prefix + last, suffix)
  {
    var whole := prefix + last;
    forall k | 0 <= k < |suffix|
      ensures whole[|whole| - |suffix| + k] == suffix[k]
    {
      assert whole[|whole| - |suffix| + k] == last[|last| - |suffix| + k];
    }
  }
}
