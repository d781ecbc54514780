/**
 * The import step of account creation (AccountImportOptions.js): a JSON
 * keyfile is checked and its address prefixed, a recovery phrase is typed,
 * and "Next" hands either to the account-creation store and moves to the
 * following step.
 */
module AccountImport {
  import opened Wrappers
  import opened Text

  const KeyfileCipher: string := "aes-128-ctr"
  const AddressLength: nat := 40
  const StepRoute: string := "/accounts/new/"

  datatype Crypto = Crypto(cipher: Option<string>)

  /**
   * The parts of a parsed keyfile the check reads. `address` is None when
   * the parsed value has no address (reading its length then throws);
   * `meta` is the truthiness of `json.meta`.
   */
  datatype Keyfile = Keyfile(address: Option<string>, meta: bool, crypto: Option<Crypto>)

  /** What `JSON.parse` gives: a value, or a syntax error. */
  datatype Parsed = NotJson | Json(doc: Keyfile)

  /** The keyfile check: a 40-character address, `meta`, and AES-128-CTR encryption. */
  predicate IsValidKeyfile(doc: Keyfile)
    requires doc.address.Some?
  {
    && |doc.address.value| == AddressLength
    && doc.meta
    && doc.crypto.Some?
    && doc.crypto.value.cipher == Some(KeyfileCipher)
  }

  /** `json.address = '0x'.concat(json.address)`. */
  function PrefixAddress(doc: Keyfile): (r: Keyfile)
    requires doc.address.Some?
    ensures r.address.Some? && |r.address.value| == |doc.address.value| + 2
    ensures r.address.value[..2] == "0x" && r.address.value[2..] == doc.address.value
    ensures r.meta == doc.meta && r.crypto == doc.crypto
  {
    doc.(address := Some("0x" + doc.address.value))
  }

  /** A keyfile that passes the check is kept with a 42-character `0x` address and its checked fields. */
  lemma ValidKeyfileKeptPrefixed(doc: Keyfile)
    requires doc.address.Some? && IsValidKeyfile(doc)
    ensures var kept := PrefixAddress(doc);
            && |kept.address.value| == AddressLength + 2 && kept.address.value[..2] == "0x"
            && kept.meta && kept.crypto.Some? && kept.crypto.value.cipher == Some(KeyfileCipher)
  {
  }

  /** The characters `Number(s)` skips as white space (ECMAScript WhiteSpace and LineTerminator). */
  predicate IsJsWhitespace(c: char)
  {
    c in {'\U{0009}', '\U{000A}', '\U{000B}', '\U{000C}', '\U{000D}', '\U{0020}', '\U{00A0}', '\U{1680}',
          '\U{2000}', '\U{2001}', '\U{2002}', '\U{2003}', '\U{2004}', '\U{2005}', '\U{2006}', '\U{2007}',
          '\U{2008}', '\U{2009}', '\U{200A}', '\U{2028}', '\U{2029}', '\U{202F}', '\U{205F}', '\U{3000}',
          '\U{FEFF}'}
  }

  /** `+pathname.slice(-1)`: the last character as a number, 0 for none or white space, NaN (None) otherwise. */
  function CurrentStep(pathname: string): (r: Option<nat>)
    ensures pathname != [] && IsDigit(pathname[|pathname| - 1]) ==>
              r == Some(DigitValue(pathname[|pathname| - 1]))
    ensures r.Some? ==> r.value < 10
  {
    if pathname == [] then Some(0)
    else
      var c := pathname[|pathname| - 1];
      if IsDigit(c) then Some(DigitValue(c))
      else if IsJsWhitespace(c) then Some(0)
      else None
  }

  /** The route `handleNextStep` pushes: the step after the current one. */
  function NextRoute(pathname: string): (r: string)
    ensures |r| > |StepRoute| && r[..|StepRoute|] == StepRoute
  {
    StepRoute + (match CurrentStep(pathname) case Some(n) => NatToString(n + 1) case None => "NaN")
  }

  /** On a path ending in a digit d, Next leads to the route whose step number reads back as d + 1. */
  lemma NextRouteAdvancesStep(pathname: string)
    requires pathname != [] && IsDigit(pathname[|pathname| - 1])
    ensures var step := NextRoute(pathname)[|StepRoute|..];
            (forall i :: 0 <= i < |step| ==> IsDigit(step[i]))
            && ParseDigits(step) == DigitValue(pathname[|pathname| - 1]) + 1
  {
    var n := DigitValue(pathname[|pathname| - 1]);
    assert NextRoute(pathname)[|StepRoute|..] == NatToString(n + 1);
    ParsePrinted(n + 1);
  }

  /** A path whose last character is not a digit or white space leads to `/accounts/new/NaN`. */
  lemma NextRouteNaN(pathname: string)
    requires pathname != [] && !IsDigit(pathname[|pathname| - 1]) && !IsJsWhitespace(pathname[|pathname| - 1])
    ensures NextRoute(pathname) == "/accounts/new/NaN"
  {
  }

  /** The `disabled` expression of the Next button. */
  predicate NextDisabled(hasJson: bool, valueLength: nat, isFileValid: bool, isLoading: bool)
  {
    (!hasJson && valueLength == 0) || (hasJson && !isFileValid) || isLoading
  }

  /** Since the file-validity state is never set, Next is disabled whenever a keyfile is held. */
  lemma NextDisabledWithKeyfile(valueLength: nat, isLoading: bool)
    ensures NextDisabled(true, valueLength, false, isLoading)
  {
  }

  /** With no keyfile and no file-validity flag, Next is enabled exactly for a non-empty phrase while not loading. */
  lemma NextEnabledForPhrase(valueLength: nat, isLoading: bool)
    ensures !NextDisabled(false, valueLength, false, isLoading) <==> valueLength > 0 && !isLoading
  {
  }

  /** What the component hands to the account-creation store. */
  datatype StoreCall = SetJson(json: Option<Keyfile>) | SetPhrase(phrase: string)

  class AccountImportOptions {
    var isLoading: bool
    /** Initialised to false and never written. */
    var isFileValid: bool
    var json: Option<Keyfile>
    var value: string
    /** The store's `isJSON` flag. */
    var isJSON: bool
    var storeCalls: seq<StoreCall>
    var history: seq<string>
    const pathname: string
    const isImport: bool
    const parse: string -> Parsed

    ghost predicate Valid()
      reads this
    {
      !isFileValid
    }

    constructor (pathname: string, isImport: bool, isJSON: bool, parse: string -> Parsed)
      ensures Valid()
      ensures this.pathname == pathname && this.isImport == isImport && this.isJSON == isJSON && this.parse == parse
      ensures !isLoading && json.None? && value == "" && storeCalls == [] && history == []
    {
      isLoading := false;
      isFileValid := false;
      json := None;
      value := "";
      this.isJSON := isJSON;
      storeCalls := [];
      history := [];
      this.pathname := pathname;
      this.isImport := isImport;
      this.parse := parse;
    }

    predicate ButtonDisabled()
      reads this
    {
      NextDisabled(json.Some?, |value|, isFileValid, isLoading)
    }

    method HandleChange(newValue: string)
      modifies this`value
      ensures value == newValue
    {
      value := newValue;
    }

    /**
     * `handleNextStep`: hand over the keyfile or the phrase, then go to the
     * next step. `storeAccepts` is whether the awaited store call resolves:
     * when it rejects, the handler stops before the route is pushed and the
     * form stays loading.
     */
    method HandleNextStep(storeAccepts: bool)
      modifies this`isLoading, this`storeCalls, this`history
      ensures isLoading == (old(isLoading) || isJSON || isImport)
      ensures storeCalls == old(storeCalls) + (if isJSON then [SetJson(json)] else [])
                            + (if isImport && !isJSON then [SetPhrase(value)] else [])
      ensures history == old(history) + (if (isJSON || isImport) && !storeAccepts then [] else [NextRoute(pathname)])
    {
      if isJSON {
        isLoading := true;
        storeCalls := storeCalls + [SetJson(json)];
        if !storeAccepts {
          return;
        }
      }
      if isImport && !isJSON {
        isLoading := true;
        storeCalls := storeCalls + [SetPhrase(value)];
        if !storeAccepts {
          return;
        }
      }
      history := history + [NextRoute(pathname)];
    }

    /**
     * `handleChangeFile`: a file that parses marks the store as JSON; a
     * valid keyfile is kept with its address prefixed and the next step is
     * taken at once, which reaches the next route only when the store
     * accepts the keyfile. Anything that throws synchronously is swallowed.
     */
    method HandleChangeFile(result: string, storeAccepts: bool)
      requires Valid()
      modifies this`isJSON, this`json, this`isLoading, this`storeCalls, this`history
      ensures Valid()
      ensures parse(result).NotJson? ==> unchanged(this)
      ensures parse(result).Json? ==> isJSON
      ensures parse(result).Json? && (parse(result).doc.address.None? || !IsValidKeyfile(parse(result).doc)) ==>
                json == old(json) && isLoading == old(isLoading)
                && storeCalls == old(storeCalls) && history == old(history)
      ensures parse(result).Json? && parse(result).doc.address.Some? && IsValidKeyfile(parse(result).doc) ==>
                var stored := Some(PrefixAddress(parse(result).doc));
                && json == stored && isLoading
                && storeCalls == old(storeCalls) + [SetJson(stored)]
                && history == old(history) + (if storeAccepts then [NextRoute(pathname)] else [])
    {
      var parsed := parse(result);
      if parsed.NotJson? {
        return;
      }
      isJSON := true;
      var doc := parsed.doc;
      if doc.address.None? {
        return;
      }
      var isFileValid := IsValidKeyfile(doc);
      doc := PrefixAddress(doc);
      if isFileValid {
        json := Some(doc);
        HandleNextStep(storeAccepts);
      }
    }
  }
}
