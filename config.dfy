/**
 * Runtime settings: the comma-separated list parser used for the CORS origin
 * list, and the check that the Azure OpenAI settings are present. Reading the
 * environment is not part of this model; a `Settings` value holds what was read.
 */
module Config {
  import opened Wrappers
  import opened Text

  /** The settings read from the environment (None for an unset variable). */
  datatype Settings = Settings(
    azureOpenaiEndpoint: Option<string>,
    azureOpenaiApiKey: Option<string>,
    azureOpenaiDeployment: Option<string>,
    azureOpenaiApiVersion: Option<string>,
    corsAllowOrigins: seq<string>)

  /** The list returned for an unset or empty variable. */
  const AllowAll: seq<string> := ["*"]

  /**
   * `Settings._parse_list`: ["*"] when the variable is unset or "", otherwise
   * the whitespace-trimmed comma-separated parts, dropping the parts left empty.
   */
  function ParseList(raw: Option<string>): (r: seq<string>)
    ensures raw.None? || raw.value == "" ==> r == ["*"]
    ensures raw.Some? && raw.value != "" ==>
              forall i :: 0 <= i < |r| ==> r[i] != "" && IsTrimmed(r[i]) && ',' !in r[i]
  {
    if raw.None? || raw.value == "" then AllowAll
    else KeepStrippedParts(Split(raw.value, ','))
  }

  /** `[p.strip() for p in parts if p.strip()]`. */
  function KeepStrippedParts(parts: seq<string>): (r: seq<string>)
    requires forall i :: 0 <= i < |parts| ==> ',' !in parts[i]
    ensures |r| <= |parts|
    ensures forall i :: 0 <= i < |r| ==> r[i] != "" && IsTrimmed(r[i]) && ',' !in r[i]
    decreases |parts|
  {
    if parts == [] then []
    else
      var p := Strip(parts[0]);
      StripIsSlice(parts[0]);
      var rest := KeepStrippedParts(parts[1..]);
      if p == "" then rest else [p] + rest
  }

  /** A stripped string is a contiguous slice of the original, so it gains no characters. */
  lemma StripIsSlice(s: string)
    ensures forall c :: c in Strip(s) ==> c in s
  {
    var l := StripLeft(s);
    assert forall c :: c in StripRight(l) ==> c in l;
    assert forall c :: c in l ==> c in s;
  }

  /**
   * The parser keeps the order of the parts: joining trimmed, non-empty,
   * comma-free items with "," and parsing the result gives the items back.
   */
  lemma ParseListJoin(items: seq<string>)
    requires items != []
    requires forall i :: 0 <= i < |items| ==> items[i] != "" && IsTrimmed(items[i]) && ',' !in items[i]
    ensures ParseList(Some(Join([','], items))) == items
  {
    var s := Join([','], items);
    assert s != "" by {
      if |items| == 1 {
        assert s == items[0];
      } else {
        assert |s| >= |items[0]|;
      }
    }
    SplitJoin(items, ',');
    KeepTrimmedParts(items);
  }

  /** Parts that are already trimmed and non-empty pass through unchanged. */
  lemma {:induction false} KeepTrimmedParts(parts: seq<string>)
    requires forall i :: 0 <= i < |parts| ==> parts[i] != "" && IsTrimmed(parts[i]) && ',' !in parts[i]
    ensures KeepStrippedParts(parts) == parts
    decreases |parts|
  {
    if parts != [] {
      TrimmedIsFixed(parts[0]);
      KeepTrimmedParts(parts[1..]);
    }
  }

  /** A single part is kept stripped, or dropped when it strips to "". */
  lemma KeepStrippedPart(p: string)
    requires ',' !in p
    ensures KeepStrippedParts([p]) == (if Strip(p) == "" then [] else [Strip(p)])
  {
    assert [p][1..] == [];
  }

  /**
   * The parts are handled one at a time, left to right: the parts kept from
   * `a + b` are those kept from `a` followed by those kept from `b`.
   */
  lemma {:induction false} KeepStrippedPartsAppend(a: seq<string>, b: seq<string>)
    requires forall i :: 0 <= i < |a| ==> ',' !in a[i]
    requires forall i :: 0 <= i < |b| ==> ',' !in b[i]
    ensures KeepStrippedParts(a + b) == KeepStrippedParts(a) + KeepStrippedParts(b)
    decreases |a|
  {
    if a == [] {
      assert a + b == b;
    } else {
      assert (a + b)[0] == a[0];
      assert (a + b)[1..] == a[1..] + b;
      KeepStrippedPartsAppend(a[1..], b);
    }
  }

  /**
   * Parsing a non-empty value made of comma-free parts keeps the stripped
   * non-blank parts, in order; the parts themselves need not be trimmed.
   */
  lemma ParseListStripsParts(parts: seq<string>)
    requires parts != []
    requires forall i :: 0 <= i < |parts| ==> ',' !in parts[i]
    requires Join([','], parts) != ""
    ensures ParseList(Some(Join([','], parts))) == KeepStrippedParts(parts)
  {
    SplitJoin(parts, ',');
  }

  /**
   * Whitespace around the items is dropped: items padded with whitespace on
   * either side, joined by ",", parse to the bare items in order
   * (" a , b " gives ["a", "b"]).
   */
  lemma ParseListTrimsItems(items: seq<string>, left: seq<string>, right: seq<string>)
    requires items != [] && |left| == |items| && |right| == |items|
    requires forall i :: 0 <= i < |items| ==> items[i] != "" && IsTrimmed(items[i]) && ',' !in items[i]
    requires forall i :: 0 <= i < |items| ==> AllSpace(left[i]) && AllSpace(right[i])
    ensures ParseList(Some(Join([','], Padded(items, left, right)))) == items
  {
    var parts := Padded(items, left, right);
    PaddedCommaFree(items, left, right);
    assert Join([','], parts) != "" by {
      JoinStartsWith([','], parts);
      assert |parts[0]| >= |items[0]|;
    }
    ParseListStripsParts(parts);
    forall i | 0 <= i < |parts| ensures Strip(parts[i]) == items[i] {
      StripPadded(left[i], items[i], right[i]);
    }
    KeepNonBlankParts(parts, items);
  }

  /** Each item with its left and right padding around it. */
  function Padded(items: seq<string>, left: seq<string>, right: seq<string>): (r: seq<string>)
    requires |left| == |items| && |right| == |items|
    ensures |r| == |items|
    ensures forall i :: 0 <= i < |items| ==> r[i] == left[i] + items[i] + right[i]
  {
    seq(|items|, i requires 0 <= i < |items| => left[i] + items[i] + right[i])
  }

  /** Padding with whitespace adds no comma. */
  lemma PaddedCommaFree(items: seq<string>, left: seq<string>, right: seq<string>)
    requires |left| == |items| && |right| == |items|
    requires forall i :: 0 <= i < |items| ==> ',' !in items[i]
    requires forall i :: 0 <= i < |items| ==> AllSpace(left[i]) && AllSpace(right[i])
    ensures forall i :: 0 <= i < |items| ==> ',' !in Padded(items, left, right)[i]
  {
    forall i | 0 <= i < |items| ensures ',' !in Padded(items, left, right)[i] {
      var p := left[i] + items[i] + right[i];
      forall k | 0 <= k < |p| ensures p[k] != ',' {
        if k < |left[i]| {
          assert IsSpace(left[i][k]);
        } else if k >= |left[i]| + |items[i]| {
          assert IsSpace(right[i][k - |left[i]| - |items[i]|]);
        } else {
          assert p[k] == items[i][k - |left[i]|];
        }
      }
    }
  }

  /** Parts that each strip to a non-blank item are kept as those items. */
  lemma {:induction false} KeepNonBlankParts(parts: seq<string>, items: seq<string>)
    requires |parts| == |items|
    requires forall i :: 0 <= i < |parts| ==> ',' !in parts[i] && Strip(parts[i]) == items[i] && items[i] != ""
    ensures KeepStrippedParts(parts) == items
    decreases |parts|
  {
    if parts != [] {
      KeepNonBlankParts(parts[1..], items[1..]);
    }
  }

  /** Parts made only of whitespace are all dropped. */
  lemma {:induction false} BlankPartsDropped(parts: seq<string>)
    requires forall i :: 0 <= i < |parts| ==> ',' !in parts[i] && AllSpace(parts[i])
    ensures KeepStrippedParts(parts) == []
    decreases |parts|
  {
    if parts != [] {
      StripEmptyIffAllSpace(parts[0]);
      BlankPartsDropped(parts[1..]);
    }
  }

  /**
   * A non-empty value made only of commas and whitespace yields the empty
   * list, not ["*"].
   */
  lemma OnlySeparatorsGiveEmptyList(raw: string)
    requires raw != ""
    requires forall i :: 0 <= i < |raw| ==> raw[i] == ',' || IsSpace(raw[i])
    ensures ParseList(Some(raw)) == []
  {
    var parts := Split(raw, ',');
    forall i | 0 <= i < |parts| ensures AllSpace(parts[i]) {
      JoinedPartIsSlice(parts, i);
      forall k | 0 <= k < |parts[i]| ensures IsSpace(parts[i][k]) {
        assert parts[i][k] in parts[i];
        var j :| 0 <= j < |raw| && raw[j] == parts[i][k];
      }
    }
    BlankPartsDropped(parts);
  }

  /** Each character of a joined part is a character of the joined string. */
  lemma {:induction false} JoinedPartIsSlice(parts: seq<string>, i: nat)
    requires i < |parts|
    ensures forall c :: c in parts[i] ==> c in Join([','], parts)
    decreases |parts|
  {
    if |parts| > 1 {
      if i > 0 {
        JoinedPartIsSlice(parts[1..], i - 1);
      }
      assert Join([','], parts) == parts[0] + [','] + Join([','], parts[1..]);
    }
  }

  /** The names of the three required settings, in the order they are reported. */
  const RequiredAzureNames: seq<string> := ["AZURE_OPENAI_ENDPOINT", "AZURE_OPENAI_API_KEY", "AZURE_OPENAI_DEPLOYMENT"]

  /** The leading text of the missing-configuration error. */
  const MissingConfigPrefix: string :=
    "Missing Azure OpenAI configuration. Please set the following environment variables: "

  /** Python's `not value` for an optional string. */
  predicate IsUnset(value: Option<string>) {
    value.None? || value.value == ""
  }

  /** The values of the three required settings, in reporting order. */
  function RequiredValues(s: Settings): seq<Option<string>> {
    [s.azureOpenaiEndpoint, s.azureOpenaiApiKey, s.azureOpenaiDeployment]
  }

  /** The names of the unset required settings, in the fixed reporting order. */
  function MissingAzureNames(s: Settings): (r: seq<string>)
    ensures forall k :: 0 <= k < 3 ==> (RequiredAzureNames[k] in r <==> IsUnset(RequiredValues(s)[k]))
    ensures forall n :: n in r ==> n in RequiredAzureNames
    ensures forall i, j :: 0 <= i < j < |r| ==> IndexOfName(r[i]) < IndexOfName(r[j])
  {
    (if IsUnset(s.azureOpenaiEndpoint) then [RequiredAzureNames[0]] else []) +
    (if IsUnset(s.azureOpenaiApiKey) then [RequiredAzureNames[1]] else []) +
    (if IsUnset(s.azureOpenaiDeployment) then [RequiredAzureNames[2]] else [])
  }

  /** The position of a required name in the reporting order. */
  function IndexOfName(n: string): nat {
    if n == RequiredAzureNames[0] then 0 else if n == RequiredAzureNames[1] then 1 else 2
  }

  /**
   * `Settings.require_azure_config`: fails exactly when the endpoint, the key
   * or the deployment is unset or empty, naming the missing ones; the API
   * version is never checked.
   */
  function RequireAzureConfig(s: Settings): (r: Outcome<string>)
    ensures r.Fail? <==> IsUnset(s.azureOpenaiEndpoint) || IsUnset(s.azureOpenaiApiKey) || IsUnset(s.azureOpenaiDeployment)
    ensures r.Fail? ==> r.error == MissingConfigPrefix + Join(", ", MissingAzureNames(s)) + "."
  {
    var missing := MissingAzureNames(s);
    if missing != [] then Fail(MissingConfigPrefix + Join(", ", missing) + ".") else Pass
  }

  /** The API version plays no part in the check. */
  lemma ApiVersionNotChecked(s: Settings, version: Option<string>)
    ensures RequireAzureConfig(s.(azureOpenaiApiVersion := version)) == RequireAzureConfig(s)
  {
  }
}
