/**
 * The two configuration readers of cmd/webhook/main.go: getEnv and
 * getEnvSlice. The process environment is a map parameter; an unset
 * variable reads as "", as os.Getenv reports it.
 */
module Env {

  /** os.Getenv: the value, or "" when the variable is unset. */
  function Lookup(env: map<string, string>, key: string): string
  {
    if key in env then env[key] else ""
  }

  /** getEnv: the variable's value when it is non-empty, otherwise the default. */
  function GetEnv(env: map<string, string>, key: string, defaultValue: string): (r: string)
    ensures key in env && env[key] != "" ==> r == env[key]
    ensures key !in env || env[key] == "" ==> r == defaultValue
  {
    var value := Lookup(env, key);
    if value != "" then value else defaultValue
  }

  /** The position of the first comma in s, or |s| when there is none. */
  function FirstComma(s: string): (k: nat)
    ensures k <= |s|
    ensures forall j :: 0 <= j < k ==> s[j] != ','
    ensures k < |s| ==> s[k] == ','
  {
    if |s| == 0 || s[0] == ',' then 0 else 1 + FirstComma(s[1..])
  }

  /** The comma-separated fields of s with the empty ones dropped. */
  function Fields(s: string): seq<string>
    decreases |s|
  {
    if |s| == 0 then []
    else if s[0] == ',' then Fields(s[1..])
    else
      var k := FirstComma(s);
      [s[..k]] + Fields(s[k..])
  }

  /** s with every comma removed. */
  function WithoutCommas(s: string): string
  {
    if |s| == 0 then [] else (if s[0] == ',' then [] else [s[0]]) + WithoutCommas(s[1..])
  }

  function Concat(fields: seq<string>): string
  {
    if |fields| == 0 then [] else fields[0] + Concat(fields[1..])
  }

  /** getEnvSlice */
  method GetEnvSlice(env: map<string, string>, key: string, defaultValue: seq<string>) returns (result: seq<string>)
    ensures Lookup(env, key) == "" ==> result == defaultValue
    ensures Lookup(env, key) != "" ==> result == Fields(Lookup(env, key))
  {
    var value := Lookup(env, key);
    if value == "" {
      return defaultValue;
    }
    result := SplitOnCommas(value);
  }

  /** The splitting loop of getEnvSlice: commas end fields, and empty fields are not kept. */
  method SplitOnCommas(value: string) returns (result: seq<string>)
    ensures result == Fields(value)
  {
    result := [];
    var current := "";
    var i := 0;
    assert current + value[i..] == value;
    while i < |value|
      invariant 0 <= i <= |value|
      invariant ',' !in current
      invariant Fields(value) == result + Fields(current + value[i..])
    {
      FieldsAt(current, value, i);
      if value[i] == ',' {
        if current != "" {
          result := result + [current];
        }
        current := "";
      } else {
        current := current + [value[i]];
      }
      i := i + 1;
    }
    assert forall j :: 0 <= j < |current| ==> current[j] != ',';
    FieldsEnd(current, value[i..]);
    if current != "" {
      result := result + [current];
    }
  }

  // ---------------------------------------------------------------- lemmas

  /** One character of the getEnvSlice loop: a comma closes the current field, anything else extends it. */
  lemma FieldsStep(current: string, rest: string)
    requires forall j :: 0 <= j < |current| ==> current[j] != ','
    requires |rest| > 0
    ensures rest[0] == ',' ==>
      Fields(current + rest) == (if current != "" then [current] else []) + Fields("" + rest[1..])
    ensures rest[0] != ',' ==> Fields(current + rest) == Fields((current + [rest[0]]) + rest[1..])
  {
    assert "" + rest[1..] == rest[1..];
    if rest[0] == ',' {
      if current != "" {
        FieldsAfterField(current, rest);
      } else {
        assert current + rest == rest;
      }
    } else {
      assert current + rest == (current + [rest[0]]) + rest[1..];
    }
  }

  /** FieldsStep at position i of the value. */
  lemma FieldsAt(current: string, value: string, i: nat)
    requires ',' !in current
    requires i < |value|
    ensures value[i] == ',' ==>
      Fields(current + value[i..]) == (if current != "" then [current] else []) + Fields("" + value[i + 1..])
    ensures value[i] != ',' ==> Fields(current + value[i..]) == Fields((current + [value[i]]) + value[i + 1..])
  {
    FieldsStep(current, value[i..]);
    assert value[i..][1..] == value[i + 1..];
  }

  /** The getEnvSlice loop's exit: a pending field is the last one. */
  lemma FieldsEnd(current: string, rest: string)
    requires forall j :: 0 <= j < |current| ==> current[j] != ','
    requires rest == []
    ensures Fields(current + rest) == if current != "" then [current] else []
  {
    assert current + rest == current;
    if current != "" {
      FieldsOfOneField(current);
    }
  }

  /** A field followed by a comma is split off whole. */
  lemma FieldsAfterField(field: string, rest: string)
    requires field != "" && (forall j :: 0 <= j < |field| ==> field[j] != ',')
    requires |rest| > 0 && rest[0] == ','
    ensures Fields(field + rest) == [field] + Fields(rest[1..])
  {
    var s := field + rest;
    FirstCommaAt(s, |field|);
    assert s[..|field|] == field && s[|field|..] == rest;
  }

  lemma FirstCommaAt(s: string, k: nat)
    requires k < |s| && s[k] == ',' && (forall j :: 0 <= j < k ==> s[j] != ',')
    ensures FirstComma(s) == k
  {
  }

  /** A non-empty value without commas is a single field. */
  lemma FieldsOfOneField(s: string)
    requires s != "" && (forall j :: 0 <= j < |s| ==> s[j] != ',')
    ensures Fields(s) == [s]
  {
    assert FirstComma(s) == |s|;
    assert s[..|s|] == s && s[|s|..] == [];
  }

  /** No field is empty and none holds a comma, so leading, trailing and repeated commas give nothing. */
  lemma {:induction false} FieldsShape(s: string)
    ensures forall f :: f in Fields(s) ==> f != "" && ',' !in f
    decreases |s|
  {
    if |s| > 0 {
      if s[0] == ',' {
        FieldsShape(s[1..]);
      } else {
        var k := FirstComma(s);
        FieldsShape(s[k..]);
        assert ',' !in s[..k] by {
          forall j | 0 <= j < k ensures s[..k][j] != ',' { }
        }
      }
    }
  }

  lemma ConcatAppend(a: seq<string>, b: seq<string>)
    ensures Concat(a + b) == Concat(a) + Concat(b)
  {
    if |a| > 0 {
      assert (a + b)[1..] == a[1..] + b;
      ConcatAppend(a[1..], b);
    } else {
      assert a + b == b;
    }
  }

  lemma {:induction false} WithoutCommasAppend(a: string, b: string)
    ensures WithoutCommas(a + b) == WithoutCommas(a) + WithoutCommas(b)
    decreases |a|
  {
    if |a| > 0 {
      assert (a + b)[1..] == a[1..] + b;
      WithoutCommasAppend(a[1..], b);
    } else {
      assert a + b == b;
    }
  }

  lemma {:induction false} WithoutCommasOfCommaFree(s: string)
    requires forall j :: 0 <= j < |s| ==> s[j] != ','
    ensures WithoutCommas(s) == s
    decreases |s|
  {
    if |s| > 0 {
      WithoutCommasOfCommaFree(s[1..]);
    }
  }

  /** Joining the fields gives back the value with its commas removed and nothing else changed, whitespace included. */
  lemma {:induction false} FieldsConcat(s: string)
    ensures Concat(Fields(s)) == WithoutCommas(s)
    decreases |s|
  {
    if |s| > 0 {
      if s[0] == ',' {
        FieldsConcat(s[1..]);
      } else {
        var k := FirstComma(s);
        FieldsConcat(s[k..]);
        ConcatAppend([s[..k]], Fields(s[k..]));
        assert Concat([s[..k]]) == s[..k];
        assert s == s[..k] + s[k..];
        WithoutCommasAppend(s[..k], s[k..]);
        WithoutCommasOfCommaFree(s[..k]);
      }
    }
  }

  /** A non-empty value without a comma reads as the one-element list of itself. */
  lemma SingleValue(env: map<string, string>, key: string, defaultValue: seq<string>)
    requires key in env && env[key] != "" && ',' !in env[key]
    ensures Fields(Lookup(env, key)) == [env[key]]
  {
    FieldsOfOneField(env[key]);
  }
}
