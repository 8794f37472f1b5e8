/** Values shared by every part of the werewolf sheet model. */
module Common {

  datatype Option<T> = None | Some(value: T)

  datatype Result<T, E> = Ok(value: T) | Err(error: E)

  /** The JavaScript `TypeError` raised when a handler reads a property of an
      entry that a lookup table does not hold (`table[key].powers`,
      `table[key].value`). `table` names the table, `key` the missing key. */
  datatype Fault = UndefinedEntry(table: string, key: string)

  /** Taking one more element of a sequence appends that element. */
  lemma TakeOneMore<T>(s: seq<T>, i: int)
    requires 0 <= i < |s|
    ensures s[..i + 1] == s[..i] + [s[i]]
  {
  }
}
