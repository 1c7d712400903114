/** Small shared datatypes. */
module Base {

  datatype Option<+T> = None | Some(value: T)

  /** Every entry of `small` is an entry of `large`. */
  ghost predicate Within<K, V>(small: map<K, V>, large: map<K, V>) {
    forall k :: k in small ==> k in large && large[k] == small[k]
  }

  /** Code point order, by which `sorted` orders strings. */
  predicate StringBefore(a: string, b: string) {
    b != [] && (a == [] || a[0] < b[0] || (a[0] == b[0] && StringBefore(a[1..], b[1..])))
  }

  /** It is a total order. */
  lemma {:induction false} StringOrder(a: string, b: string)
    ensures StringBefore(a, b) || StringBefore(b, a) || a == b
    ensures !(StringBefore(a, b) && StringBefore(b, a))
  {
    if a != [] && b != [] && a[0] == b[0] {
      StringOrder(a[1..], b[1..]);
      assert a == [a[0]] + a[1..] && b == [b[0]] + b[1..];
    }
  }

  lemma {:induction false} StringTransitive(a: string, b: string, c: string)
    requires StringBefore(a, b) && StringBefore(b, c)
    ensures StringBefore(a, c)
  {
    if a != [] && a[0] == b[0] && b[0] == c[0] {
      StringTransitive(a[1..], b[1..], c[1..]);
    }
  }
}
