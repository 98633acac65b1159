/** The button label that names a departure, `"{name} ({direction})"`, and the way the
    tracking task splits it back into line name and direction. */
module TransitKey {
  import opened Prelude
  import opened Rust

  /** `format!("{} ({})", dep.name, dep.direction)`. */
  function DepartureKey(name: string, direction: string): string {
    name + " (" + direction + ")"
  }

  /** The split done for every candidate departure: the name is the text up to the
      character before the first `(`, the direction the text between that `(` and the
      last character. `None` where the Rust code panics: no `(` at all, `(` as the very
      first character (the `- 1` underflows), or `(` as the last character (the slice
      would end before it starts). */
  function ParseKey(key: string): (r: Option<(string, string)>)
    ensures r.Some? ==> '(' !in r.value.0
  {
    match Find(key, '(')
    case None => None
    case Some(p) =>
      if p == 0 || p + 1 > |key| - 1 then None
      else Some((key[..p - 1], key[p + 1..|key| - 1]))
  }

  /** Splitting a key gives back exactly the name and direction it was made from if and
      only if the name contains no `(`. */
  lemma KeyRoundTrip(name: string, direction: string)
    ensures ParseKey(DepartureKey(name, direction)) == Some((name, direction)) <==> '(' !in name
  {
    var key := DepartureKey(name, direction);
    if '(' !in name {
      assert key[|name| + 1] == '(';
      assert key[..|name| + 1] == name + " ";
      assert Find(key, '(') == Some(|name| + 1) by {
        var f := Find(key, '(');
        assert f.Some?;
        assert '(' !in key[..|name| + 1];
        assert '(' in key[..|name| + 2];
      }
      assert key[..|name|] == name;
      assert key[|name| + 2..|key| - 1] == direction;
    } else {
      var f := Find(key, '(');
      var k :| 0 <= k < |name| && name[k] == '(';
      assert key[k] == '(';
      assert f.Some? && f.value <= k;
    }
  }
}
