/**
 * `Settings.Config.parse_env_var`: how a raw environment value becomes a
 * settings field. The list fields are comma-separated; every other field is
 * handed to the settings library's JSON decoding, which is not part of this model.
 */
module Config {
  import opened Wrappers
  import opened Strings

  /** A parsed field: integers (`admins`), strings (the key pools), or the raw text left to JSON decoding. */
  datatype EnvValue = Ints(ints: seq<int>) | Strs(strs: seq<string>) | Delegated(raw: string)

  /** `int(x)` raised `ValueError` on one of the pieces. */
  datatype ConfigError = InvalidInt(piece: string)

  predicate IsKeyPool(field: string)
  {
    field == "tron_api_keys" || field == "bsc_scan_api_keys" || field == "etherscan_api_keys"
  }

  /** `[int(x) for x in pieces]`: the first piece that is not a numeral raises. */
  function ParseInts(pieces: seq<string>): (r: Result<seq<int>, ConfigError>)
    ensures r.Ok? <==> forall i :: 0 <= i < |pieces| ==> ParseInt(pieces[i]).Some?
    ensures r.Ok? ==> |r.value| == |pieces|
    ensures r.Ok? ==> forall i :: 0 <= i < |pieces| ==> ParseInt(pieces[i]) == Some(r.value[i])
    ensures r.Err? ==> exists i :: 0 <= i < |pieces| && ParseInt(pieces[i]).None? && r.error == InvalidInt(pieces[i])
  {
    if pieces == [] then Ok([])
    else match ParseInt(pieces[0])
      case None => Err(InvalidInt(pieces[0]))
      case Some(n) =>
        match ParseInts(pieces[1..])
        case Ok(rest) => Ok([n] + rest)
        case Err(e) => Err(e)
  }

  /** The list comprehension raises on the first piece that is not a numeral. */
  lemma {:induction false} ParseIntsFirstBad(pieces: seq<string>, i: int)
    requires 0 <= i < |pieces| && ParseInt(pieces[i]).None?
    requires forall j :: 0 <= j < i ==> ParseInt(pieces[j]).Some?
    ensures ParseInts(pieces) == Err(InvalidInt(pieces[i]))
    decreases i
  {
    if i > 0 {
      assert ParseInt(pieces[0]).Some?;
      assert forall j :: 0 <= j < i - 1 ==> pieces[1..][j] == pieces[j + 1];
      ParseIntsFirstBad(pieces[1..], i - 1);
      assert pieces[1..][i - 1] == pieces[i];
    }
  }

  /** `parse_env_var(field_name, raw_val)`. */
  function ParseEnvVar(field: string, raw: string): (r: Result<EnvValue, ConfigError>)
    ensures field == "admins" ==> (r.Ok? <==> forall i :: 0 <= i < |Split(raw, ',')| ==> ParseInt(Split(raw, ',')[i]).Some?)
    ensures field != "admins" ==> r.Ok?
    ensures field != "admins" && !IsKeyPool(field) ==> r == Ok(Delegated(raw))
  {
    if field == "admins" then
      var pieces := Split(raw, ',');
      var parsed := ParseInts(pieces);
      if parsed.Ok? then Ok(Ints(parsed.value))
      else
        var i :| 0 <= i < |pieces| && ParseInt(pieces[i]).None?;
        assert !ParseInt(Split(raw, ',')[i]).Some?;
        Err(parsed.error)
    else if IsKeyPool(field) then Ok(Strs(Split(raw, ',')))
    else Ok(Delegated(raw))
  }

  /** A key pool has one key per comma plus one, no key holds a comma, and the keys join back to the raw value. */
  lemma KeyPoolPieces(field: string, raw: string)
    requires IsKeyPool(field)
    ensures ParseEnvVar(field, raw).Ok? && ParseEnvVar(field, raw).value.Strs?
    ensures var keys := ParseEnvVar(field, raw).value.strs;
      |keys| == Count(raw, ',') + 1
      && (forall i :: 0 <= i < |keys| ==> ',' !in keys[i])
      && Join(keys, ',') == raw
  {
    JoinSplit(raw, ',');
  }

  /** An empty raw key pool is a pool holding one empty key, not an empty pool. */
  lemma EmptyKeyPool(field: string)
    requires IsKeyPool(field)
    ensures ParseEnvVar(field, "") == Ok(Strs([""]))
  {
  }

  function Numerals(ids: seq<int>): (r: seq<string>)
    ensures |r| == |ids|
    ensures forall i :: 0 <= i < |ids| ==> r[i] == IntToString(ids[i])
  {
    if ids == [] then [] else [IntToString(ids[0])] + Numerals(ids[1..])
  }

  lemma IntToStringNoComma(i: int)
    ensures ',' !in IntToString(i)
  {
    var s := IntToString(i);
    var d := NatToString(if i < 0 then -i else i, 10);
    forall k | 0 <= k < |d| ensures d[k] != ',' {
      assert IsDigit(d[k], 10);
    }
    if i < 0 {
      assert s == "-" + d;
    }
  }

  lemma {:induction false} ParseIntsNumerals(ids: seq<int>)
    ensures ParseInts(Numerals(ids)) == Ok(ids)
  {
    if ids != [] {
      ParseIntToString(ids[0]);
      ParseIntsNumerals(ids[1..]);
      assert Numerals(ids)[1..] == Numerals(ids[1..]);
      assert ids == [ids[0]] + ids[1..];
    }
  }

  /** Writing the admin ids comma-separated and reading them back gives the same ids. */
  lemma AdminsRoundTrip(ids: seq<int>)
    requires |ids| >= 1
    ensures ParseEnvVar("admins", Join(Numerals(ids), ',')) == Ok(Ints(ids))
  {
    var pieces := Numerals(ids);
    forall i | 0 <= i < |pieces| ensures ',' !in pieces[i] {
      IntToStringNoComma(ids[i]);
    }
    SplitJoin(pieces, ',');
    ParseIntsNumerals(ids);
  }
}
