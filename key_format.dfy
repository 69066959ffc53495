/**
 * `LLMManager._validate_key_format` and `LLMManager._mask_key`: the
 * syntactic check applied to every API key before it is stored or used,
 * and the masked form in which a stored key is shown to the operator.
 */
module KeyFormat {
  import opened Wrappers
  import opened Strings

  const GooglePrefix := "AIzaSy"
  const OpenAIPrefix := "sk-"
  const AnthropicKeyLength := 40

  /**
   * `_validate_key_format(provider, key)`. `provider` is optional because
   * `_get_provider` may find none; an empty key and an unknown or missing
   * provider are always rejected.
   */
  function ValidateKeyFormat(provider: Option<string>, key: string): (r: bool)
    ensures key == "" ==> !r
    ensures r ==> provider in {Some("Google"), Some("OpenAI"), Some("Anthropic")}
    ensures provider == Some("Google") ==> (r <==> StartsWith(key, GooglePrefix))
    ensures provider == Some("OpenAI") ==> (r <==> StartsWith(key, OpenAIPrefix))
    ensures provider == Some("Anthropic") ==>
              (r <==> |key| == AnthropicKeyLength && forall i :: 0 <= i < |key| ==> IsAlnumChar(key[i]))
  {
    if key == "" then false
    else match provider
      case Some("Google") => StartsWith(key, GooglePrefix)
      case Some("OpenAI") => StartsWith(key, OpenAIPrefix)
      case Some("Anthropic") => |key| == AnthropicKeyLength && IsAlnum(key)
      case _ => false
  }

  /** No key passes both the OpenAI and the Anthropic check: `-` is not alphanumeric. */
  lemma OpenAIAndAnthropicFormatsDisjoint(key: string)
    ensures !(ValidateKeyFormat(Some("OpenAI"), key) && ValidateKeyFormat(Some("Anthropic"), key))
  {
    if ValidateKeyFormat(Some("OpenAI"), key) {
      assert key[2] == '-';
    }
  }

  /** The text shown for a key that is absent or empty. */
  const NotSet := "Not set"

  /** `_mask_key(key)`: `key[:4] + "..." + key[-4:]` with Python slicing, or "Not set". */
  function MaskKey(key: Option<string>): (r: string)
    ensures r == NotSet <==> key.None? || key.value == ""
  {
    if key.None? || key.value == "" then NotSet
    else
      var k := key.value;
      var r := SliceTo(k, 4) + "..." + SliceFrom(k, -4);
      assert r != NotSet by { MaskedIsNeverNotSet(k); }
      r
  }

  /**
   * The masked form of a non-empty key shows at most its first four and its
   * last four characters (fewer, overlapping, when the key is shorter than
   * eight), around a literal "...".
   */
  lemma MaskKeyShape(k: string)
    requires k != ""
    ensures var m := if |k| < 4 then |k| else 4;
            MaskKey(Some(k)) == k[..m] + "..." + k[|k| - m..]
  {
  }

  /** For a key of eight characters or more the mask has exactly eleven characters. */
  lemma MaskKeyLength(k: string)
    requires |k| >= 8
    ensures |MaskKey(Some(k))| == 11
    ensures MaskKey(Some(k))[..4] == k[..4] && MaskKey(Some(k))[7..] == k[|k| - 4..]
  {
    MaskKeyShape(k);
  }

  /** No non-empty key masks to the "Not set" placeholder, so the two displays never collide. */
  lemma MaskedIsNeverNotSet(k: string)
    requires k != ""
    ensures SliceTo(k, 4) + "..." + SliceFrom(k, -4) != NotSet
  {
    var m := if |k| < 4 then |k| else 4;
    var r := SliceTo(k, 4) + "..." + SliceFrom(k, -4);
    assert r == k[..m] + "..." + k[|k| - m..];
    assert |r| == 2 * m + 3;
    if |r| == |NotSet| {
      assert m == 2;
      assert r[2] == '.' && NotSet[2] == 't';
    }
  }
}
