/**
 * The static lookup tools the gateway registers: `check_angel`,
 * `query_angel_type` and `query_gpu_specs`. Each answers with text and never
 * fails; an unknown key is answered with a fixed "unknown" text. The long
 * description texts are kept abstract: a reply names which text it is, and an
 * "unknown" reply carries the names it lists.
 */
module Tools {
  import opened Wrappers

  /** The nine angel types `query_angel_type` knows. */
  datatype Angel =
    | Seraphim | Cherubim | Thrones | Dominions | Virtues
    | Powers | Principalities | Archangels | Angels

  /** The two GPU models `query_gpu_specs` knows. */
  datatype Gpu = H100 | A100

  /** The text content of a tool response. */
  datatype Reply =
    | AngelsExist                        // the one text of `check_angel`
    | AngelText(angel: Angel)            // the description of one angel type
    | UnknownAngelText(listed: seq<string>)
    | GpuText(gpu: Gpu)                  // the specification sheet of one GPU
    | UnknownGpuText(listed: seq<string>)

  /** A tool's `Result<ToolResponseContent>`. */
  datatype ToolResult = Ok(reply: Reply) | Err(message: string)

  /** The key that selects each angel type. */
  function AngelKey(a: Angel): string {
    match a
    case Seraphim => "炽天使"
    case Cherubim => "智天使"
    case Thrones => "座天使"
    case Dominions => "主天使"
    case Virtues => "力天使"
    case Powers => "能天使"
    case Principalities => "权天使"
    case Archangels => "大天使"
    case Angels => "天使"
  }

  /** The angel type names the "unknown angel type" text lists. */
  const ListedAngelTypes: seq<string> :=
    ["炽天使", "智天使", "座天使", "主天使", "力天使", "能天使", "权天使", "大天使", "普通天使"]

  /** The key that selects each GPU model. */
  function GpuKey(g: Gpu): string {
    match g
    case H100 => "H100"
    case A100 => "A100"
  }

  /** The GPU model names the "unknown GPU model" text lists. */
  const ListedGpuModels: seq<string> := ["H100", "A100"]

  // ---------------------------------------------------------------------------
  // case mapping (ASCII letters; other characters are left as they are)

  function LowerChar(c: char): char {
    if 'A' <= c <= 'Z' then (c as int + 32) as char else c
  }

  function UpperChar(c: char): char {
    if 'a' <= c <= 'z' then (c as int - 32) as char else c
  }

  /** `str::to_lowercase`. */
  function ToLowercase(s: string): (r: string)
    ensures |r| == |s| && forall k :: 0 <= k < |s| ==> r[k] == LowerChar(s[k])
  {
    if s == [] then [] else [LowerChar(s[0])] + ToLowercase(s[1..])
  }

  /** `str::to_uppercase`. */
  function ToUppercase(s: string): (r: string)
    ensures |r| == |s| && forall k :: 0 <= k < |s| ==> r[k] == UpperChar(s[k])
  {
    if s == [] then [] else [UpperChar(s[0])] + ToUppercase(s[1..])
  }

  // ---------------------------------------------------------------------------
  // the tools

  /** `check_angel`: the argument is ignored. */
  function CheckAngel(a: real): (r: ToolResult)
    ensures r == Ok(AngelsExist)
  {
    Ok(AngelsExist)
  }

  /** The angel type whose key is exactly `key`, if any. */
  function AngelOfKey(key: string): Option<Angel> {
    match key
    case "炽天使" => Some(Seraphim)
    case "智天使" => Some(Cherubim)
    case "座天使" => Some(Thrones)
    case "主天使" => Some(Dominions)
    case "力天使" => Some(Virtues)
    case "能天使" => Some(Powers)
    case "权天使" => Some(Principalities)
    case "大天使" => Some(Archangels)
    case "天使" => Some(Angels)
    case _ => None
  }

  /** `query_angel_type`: the lower-cased input matched exactly against the nine keys. */
  function QueryAngelType(angelType: string): (r: ToolResult)
    ensures r.Ok?
  {
    match AngelOfKey(ToLowercase(angelType))
    case Some(a) => Ok(AngelText(a))
    case None => Ok(UnknownAngelText(ListedAngelTypes))
  }

  /** The GPU model whose key is exactly `key`, if any. */
  function GpuOfKey(key: string): Option<Gpu> {
    match key
    case "H100" => Some(H100)
    case "A100" => Some(A100)
    case _ => None
  }

  /** `query_gpu_specs`: the upper-cased input matched exactly against "H100" and "A100". */
  function QueryGpuSpecs(gpuModel: string): (r: ToolResult)
    ensures r.Ok?
  {
    match GpuOfKey(ToUppercase(gpuModel))
    case Some(g) => Ok(GpuText(g))
    case None => Ok(UnknownGpuText(ListedGpuModels))
  }

  // ---------------------------------------------------------------------------
  // properties of the angel lookup

  /** `key` holds no ASCII letter, so no case mapping of ours touches it. */
  predicate Caseless(key: string) {
    forall k :: 0 <= k < |key| ==> !('A' <= key[k] <= 'Z') && !('a' <= key[k] <= 'z')
  }

  /** Lower-casing yields a caseless key exactly when the input is that key. */
  lemma LowercaseToCaseless(s: string, key: string)
    requires Caseless(key)
    ensures ToLowercase(s) == key <==> s == key
  {
    if s == key {
      assert ToLowercase(s) == key;
    } else if |s| == |key| {
      var k :| 0 <= k < |s| && s[k] != key[k];
      assert ToLowercase(s)[k] != key[k];
    }
  }

  lemma AngelKeysCaseless(a: Angel)
    ensures Caseless(AngelKey(a))
  {
  }

  lemma AngelOfKeyInverse(key: string, a: Angel)
    ensures AngelOfKey(key) == Some(a) <==> key == AngelKey(a)
  {
  }

  /** An angel type's description is returned exactly for its key, with nothing around it. */
  lemma AngelLookupHit(s: string, a: Angel)
    ensures QueryAngelType(s) == Ok(AngelText(a)) <==> s == AngelKey(a)
  {
    AngelKeysCaseless(a);
    LowercaseToCaseless(s, AngelKey(a));
    AngelOfKeyInverse(ToLowercase(s), a);
  }

  /** Every input that is not one of the nine keys gets the fixed "unknown angel type" text. */
  lemma AngelLookupFallback(s: string)
    ensures QueryAngelType(s) == Ok(UnknownAngelText(ListedAngelTypes)) <==>
            forall a: Angel :: s != AngelKey(a)
  {
    match AngelOfKey(ToLowercase(s))
    case Some(a) =>
      AngelLookupHit(s, a);
    case None =>
      forall a: Angel ensures s != AngelKey(a) {
        AngelLookupHit(s, a);
      }
  }

  /**
   * The "unknown angel type" text names "普通天使", but that name is not a
   * key: asking for it gets the same "unknown" text again.
   */
  lemma ListedAngelNameUnknown()
    ensures "普通天使" in ListedAngelTypes
    ensures QueryAngelType("普通天使") == Ok(UnknownAngelText(ListedAngelTypes))
  {
    assert ListedAngelTypes[8] == "普通天使";
    LowercaseToCaseless("普通天使", "普通天使");
  }

  /** The nine keys, in the order of the lookup. */
  const AngelKeys: seq<string> :=
    [AngelKey(Seraphim), AngelKey(Cherubim), AngelKey(Thrones), AngelKey(Dominions), AngelKey(Virtues),
     AngelKey(Powers), AngelKey(Principalities), AngelKey(Archangels), AngelKey(Angels)]

  /** The lookup with an "unknown" text that lists the nine keys themselves. */
  function QueryAngelTypeIntended(angelType: string): (r: ToolResult)
    ensures r.Ok?
  {
    match AngelOfKey(ToLowercase(angelType))
    case Some(a) => Ok(AngelText(a))
    case None => Ok(UnknownAngelText(AngelKeys))
  }

  /** With the intended text, every name the "unknown" text suggests is found. */
  lemma IntendedListedAngelsFound(k: nat)
    requires k < |AngelKeys|
    ensures QueryAngelTypeIntended(AngelKeys[k]).reply.AngelText?
  {
    var a := [Seraphim, Cherubim, Thrones, Dominions, Virtues, Powers, Principalities, Archangels, Angels][k];
    assert AngelKeys[k] == AngelKey(a);
    AngelLookupHit(AngelKeys[k], a);
  }

  // ---------------------------------------------------------------------------
  // properties of the GPU lookup

  /** Two inputs that differ only in the case of ASCII letters. */
  predicate SameIgnoringCase(a: string, b: string) {
    ToLowercase(a) == ToLowercase(b)
  }

  lemma UpperOfSameLower(x: char, y: char)
    requires LowerChar(x) == LowerChar(y)
    ensures UpperChar(x) == UpperChar(y)
  {
  }

  /** Inputs that differ only in letter case get identical replies. */
  lemma GpuLookupCaseInsensitive(a: string, b: string)
    requires SameIgnoringCase(a, b)
    ensures QueryGpuSpecs(a) == QueryGpuSpecs(b)
  {
    assert |a| == |b|;
    forall k | 0 <= k < |a| ensures ToUppercase(a)[k] == ToUppercase(b)[k] {
      assert ToLowercase(a)[k] == ToLowercase(b)[k];
      UpperOfSameLower(a[k], b[k]);
    }
    assert ToUppercase(a) == ToUppercase(b);
  }

  lemma GpuOfKeyInverse(key: string, g: Gpu)
    ensures GpuOfKey(key) == Some(g) <==> key == GpuKey(g)
  {
  }

  /** Upper-casing yields a GPU key exactly for the key and its lower-case spelling. */
  lemma UppercaseToGpuKey(s: string, g: Gpu)
    ensures ToUppercase(s) == GpuKey(g) <==> s == GpuKey(g) || s == ToLowercase(GpuKey(g))
  {
    var key, lower := GpuKey(g), ToLowercase(GpuKey(g));
    assert lower[1..] == key[1..] == "100";
    if ToUppercase(s) == key {
      assert |s| == 4 && UpperChar(s[1]) == '1' && UpperChar(s[2]) == '0' && UpperChar(s[3]) == '0';
      assert s[1..] == "100";
      if s[0] == key[0] {
        assert s == [key[0]] + s[1..] == key;
      } else {
        assert s == [lower[0]] + s[1..] == lower;
      }
    } else {
      assert ToUppercase(lower)[0] == key[0];
      assert ToUppercase(lower) == key;
    }
  }

  /**
   * Only the two keys, in either letter case and with nothing around them,
   * select a GPU's specification sheet.
   */
  lemma GpuLookupHit(s: string, g: Gpu)
    ensures QueryGpuSpecs(s) == Ok(GpuText(g)) <==> s == GpuKey(g) || s == ToLowercase(GpuKey(g))
  {
    UppercaseToGpuKey(s, g);
    GpuOfKeyInverse(ToUppercase(s), g);
  }

  /** Anything else, a padded key included, gets the fixed "unknown GPU model" text. */
  lemma GpuLookupNoTrim()
    ensures QueryGpuSpecs(" H100") == Ok(UnknownGpuText(ListedGpuModels))
    ensures QueryGpuSpecs("h100") == QueryGpuSpecs("H100") == Ok(GpuText(H100))
  {
    GpuLookupHit(" H100", H100);
    GpuLookupHit(" H100", A100);
    GpuLookupHit("h100", H100);
    GpuLookupHit("H100", H100);
  }

  /** The "unknown GPU model" text lists exactly the models that are found. */
  lemma ListedGpuModelsFound(k: nat)
    requires k < |ListedGpuModels|
    ensures QueryGpuSpecs(ListedGpuModels[k]) == Ok(GpuText([H100, A100][k]))
  {
    GpuLookupHit(ListedGpuModels[k], [H100, A100][k]);
  }

  /** `check_angel` answers the same text whatever its argument. */
  lemma CheckAngelConstant(a: real, b: real)
    ensures CheckAngel(a) == CheckAngel(b) == Ok(AngelsExist)
  {
  }
}
