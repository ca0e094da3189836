/**
 * third-party/provider.go: the BlockchainDataProvider factory. Only the
 * Etherscan provider exists; a nil provider is the absence of a value.
 */
module Provider {

  import opened Wrappers
  import opened Errors
  import opened Constants
  import opened Models
  import opened Etherscan

  /** A BlockchainDataProvider value: Etherscan is the only implementation. */
  datatype DataProvider = EtherscanDataProvider(etherscan: EtherscanProvider)

  predicate IsUpper(c: char)
  {
    'A' <= c <= 'Z'
  }

  predicate IsLowerWord(w: string)
  {
    forall i :: 0 <= i < |w| ==> 'a' <= w[i] <= 'z'
  }

  /** ASCII case folding of one character. */
  function LowerChar(c: char): (r: char)
    ensures IsUpper(c) ==> r as int == c as int + 32
    ensures !IsUpper(c) ==> r == c
  {
    if IsUpper(c) then (c as int + 32) as char else c
  }

  function UpperChar(c: char): char
  {
    if 'a' <= c <= 'z' then (c as int - 32) as char else c
  }

  /** strings.ToLower restricted to ASCII. */
  function ToLower(s: string): (r: string)
    ensures |r| == |s|
    ensures forall i :: 0 <= i < |s| ==> r[i] == LowerChar(s[i])
  {
    if s == [] then [] else [LowerChar(s[0])] + ToLower(s[1..])
  }

  /** s spells the lower-case word w with each letter in either case. */
  predicate IsCasingOf(s: string, w: string)
  {
    |s| == |w| && forall i :: 0 <= i < |s| ==> s[i] == w[i] || s[i] == UpperChar(w[i])
  }

  /** Lower-casing gives a lower-case word exactly when the input is some casing of it. */
  lemma ToLowerMatches(s: string, w: string)
    requires IsLowerWord(w)
    ensures ToLower(s) == w <==> IsCasingOf(s, w)
  {
    if IsCasingOf(s, w) {
      assert forall i :: 0 <= i < |s| ==> ToLower(s)[i] == w[i];
    }
    if ToLower(s) == w {
      forall i | 0 <= i < |s|
        ensures s[i] == w[i] || s[i] == UpperChar(w[i])
      {
        assert LowerChar(s[i]) == w[i];
      }
    }
  }

  /** Both provider names are lower-case, so a lower-cased input can equal them. */
  lemma ProviderNamesLowerCase()
    ensures IsLowerWord(ProviderEtherscan) && IsLowerWord(ProviderBlockscout)
  {
  }

  lemma LowerWordFixed(w: string)
    requires IsLowerWord(w)
    ensures ToLower(w) == w
  {
  }

  /**
   * NewDataProvider: the lower-cased provider type selects Etherscan (built from
   * the Etherscan settings), Blockscout (nil provider and nil error: the case
   * has no body), or the unknown-provider error with the text as given.
   */
  function NewDataProvider(providerType: string, config: Config): (r: (Option<DataProvider>, Option<Error>))
    ensures r.0.Some? ==> r.1.None?
  {
    var kind := ToLower(providerType);
    if kind == ProviderEtherscan then (Some(EtherscanDataProvider(NewEtherscanProvider(config.etherscan))), None)
    else if kind == ProviderBlockscout then (None, None)
    else (None, Some(UnknownProvider(providerType)))
  }

  /** Any casing of "etherscan", and nothing else, gives an Etherscan provider built from config.Etherscan. */
  lemma NewDataProviderEtherscan(providerType: string, config: Config)
    ensures NewDataProvider(providerType, config).0.Some? <==> IsCasingOf(providerType, ProviderEtherscan)
    ensures IsCasingOf(providerType, ProviderEtherscan) ==>
      NewDataProvider(providerType, config) == (Some(EtherscanDataProvider(NewEtherscanProvider(config.etherscan))), None)
  {
    ProviderNamesLowerCase();
    ToLowerMatches(providerType, ProviderEtherscan);
    ToLowerMatches(providerType, ProviderBlockscout);
  }

  /** Any casing of "blockscout", and nothing else, gives no provider and no error. */
  lemma NewDataProviderBlockscout(providerType: string, config: Config)
    ensures NewDataProvider(providerType, config) == (None, None) <==> IsCasingOf(providerType, ProviderBlockscout)
  {
    ProviderNamesLowerCase();
    ToLowerMatches(providerType, ProviderEtherscan);
    ToLowerMatches(providerType, ProviderBlockscout);
  }

  /** Every other text is an unknown provider, reported with the text as given, not lower-cased. */
  lemma NewDataProviderUnknown(providerType: string, config: Config)
    ensures NewDataProvider(providerType, config).1.Some?
        <==> !IsCasingOf(providerType, ProviderEtherscan) && !IsCasingOf(providerType, ProviderBlockscout)
    ensures NewDataProvider(providerType, config).1.Some? ==>
      NewDataProvider(providerType, config) == (None, Some(UnknownProvider(providerType)))
  {
    ProviderNamesLowerCase();
    ToLowerMatches(providerType, ProviderEtherscan);
    ToLowerMatches(providerType, ProviderBlockscout);
  }

  /** The Blockscout settings are never read. */
  lemma NewDataProviderIgnoresBlockscout(providerType: string, c1: Config, c2: Config)
    requires c1.etherscan == c2.etherscan
    ensures NewDataProvider(providerType, c1) == NewDataProvider(providerType, c2)
  {
  }
}
