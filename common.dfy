/** Small shared vocabulary: an optional value and removal from a sequence
    (the way a Phaser group forgets a destroyed child). */
module Common {

  datatype Option<+T> = None | Some(value: T)

  /** The sequence without its element at index `i`, order kept. */
  function RemoveAt<T>(s: seq<T>, i: nat): (r: seq<T>)
    requires i < |s|
    ensures |r| == |s| - 1
    ensures forall k :: 0 <= k < i ==> r[k] == s[k]
    ensures forall k :: i <= k < |r| ==> r[k] == s[k + 1]
    ensures forall x :: x in r ==> x in s
  {
    s[..i] + s[i + 1..]
  }
}
