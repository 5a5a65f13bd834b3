/** Types and string helpers shared by the two admin pages. */
module Common {

  datatype Option<T> = None | Some(value: T)

  /** The settled outcome of one awaited remote call: the value it resolved
      with, or a rejection. `message` is the rejection's message when the
      rejected value is an `Error` instance, and None otherwise. */
  datatype Reply<T> = Ok(value: T) | Fail(message: Option<string>)

  /** A notification shown by a page (`toast({title, description, variant})`);
      `destructive` is the "destructive" variant. */
  datatype Toast = Toast(title: string, description: string, destructive: bool)

  datatype Role = Admin | User

  /** The signed-in user as resolved by the session hook. */
  datatype Principal = Principal(id: string, role: Role)

  predicate IsUpper(c: char) { 'A' <= c <= 'Z' }

  /** ASCII lower-casing of one character. */
  function LowerChar(c: char): (r: char)
    ensures !IsUpper(r)
    ensures IsUpper(c) ==> r as int == c as int + 32
    ensures !IsUpper(c) ==> r == c
  {
    if IsUpper(c) then (c as int + 32) as char else c
  }

  /** `toLowerCase`, restricted to ASCII letters. */
  function Lower(s: string): (r: string)
    ensures |r| == |s|
    ensures forall i :: 0 <= i < |s| ==> r[i] == LowerChar(s[i])
  {
    seq(|s|, i requires 0 <= i < |s| => LowerChar(s[i]))
  }

  /** `hay.includes(needle)`: needle occurs in hay at some position. */
  predicate Contains(hay: string, needle: string)
  {
    exists i :: 0 <= i <= |hay| && needle <= hay[i..]
  }

  /** Every string contains the empty string. */
  lemma ContainsEmpty(hay: string)
    ensures Contains(hay, "")
  {
    assert "" <= hay[0..];
  }
}
