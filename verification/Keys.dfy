/** Fleet keys "<builder id>/<local name>" (public/js/core/keys.js). */
module Keys {
  import opened Options

  const SEP := '/'
  const MAX_ID := 24

  predicate IdChar(c: char) { 'a' <= c <= 'z' || '0' <= c <= '9' || c == '-' }

  /** The pattern of a builder id. */
  predicate ValidId(id: string) {
    1 <= |id| <= MAX_ID && forall i :: 0 <= i < |id| ==> IdChar(id[i])
  }

  datatype Parsed = Parsed(builder: string, name: string)

  function Fkey(id: string, name: string): string { id + [SEP] + name }

  /** Where the first separator stands, or the length. */
  function FirstSep(k: string): (i: nat)
    ensures i <= |k|
    ensures forall j :: 0 <= j < i ==> k[j] != SEP
    ensures i < |k| ==> k[i] == SEP
  {
    if k == [] || k[0] == SEP then 0 else 1 + FirstSep(k[1..])
  }

  function ParseFkey(k: string): Option<Parsed> {
    var i := FirstSep(k);
    if i == |k| || !ValidId(k[..i]) || i + 1 == |k| then None
    else Some(Parsed(k[..i], k[i + 1..]))
  }

  predicate IsFkey(k: string) { ParseFkey(k).Some? }

  /** Parsing undoes `Fkey`, so a fleet key names one builder and one local name. */
  lemma ParseOfFkey(id: string, name: string)
    requires ValidId(id) && name != []
    ensures ParseFkey(Fkey(id, name)) == Some(Parsed(id, name))
  {
    var k := Fkey(id, name);
    var i := FirstSep(k);
    assert k[|id|] == SEP;
    assert forall j :: 0 <= j < |id| ==> k[j] == id[j];
    assert k[..|id|] == id && k[|id| + 1..] == name;
  }

  /** And what parses is the key it was built from. */
  lemma FkeyOfParse(k: string)
    requires IsFkey(k)
    ensures var p := ParseFkey(k).value; ValidId(p.builder) && p.name != [] && Fkey(p.builder, p.name) == k
  {
    var i := FirstSep(k);
    assert k == k[..i] + [k[i]] + k[i + 1..];
  }

  lemma FkeyInjective(id: string, name: string, id': string, name': string)
    requires ValidId(id) && ValidId(id') && name != [] && name' != []
    requires Fkey(id, name) == Fkey(id', name')
    ensures id == id' && name == name'
  {
    ParseOfFkey(id, name);
    ParseOfFkey(id', name');
  }
}
