/** internal/client/codec.go: a decoded SCALE enum, seen as a map from the
    variant name to its raw payload. */
module Codec {

  type ScaleEnum = map<string, seq<bv8>>

  /** `ScaleEnum.Value`: the key met first when ranging over the map, or "" for
      an empty map. Go's map iteration order is unspecified, so the model picks
      any key. The map is a value here, so the call cannot change it. */
  method Value(s: ScaleEnum) returns (r: string)
    ensures |s| == 0 ==> r == ""
    ensures |s| > 0 ==> r in s
  {
    if |s| == 0 {
      r := "";
    } else {
      assert s.Keys != {};
      r :| r in s;
    }
  }

  /** An enum with a single variant names that variant. */
  method SingleVariantExample(payload: seq<bv8>) returns (r: string)
    ensures r == "Revoke"
  {
    var e: ScaleEnum := map["Revoke" := payload];
    r := Value(e);
  }
}
