/**
 * `useContractMode.js`: the hook that picks the mock or the FHE hook by the build-time flag and
 * tags the chosen hook with its mode.
 */
module ContractMode {
  import opened Wrappers
  import Config

  /** `shouldUseFHE`: the flag itself; the chain id is ignored. */
  function ShouldUseFhe(enabled: bool, chainId: int): (use: bool)
    ensures use <==> enabled
  {
    enabled
  }

  /** The chain never matters: two chains give the same answer, and it is the flag. */
  lemma ShouldUseFheIgnoresChain(enabled: bool, chainA: int, chainB: int)
    ensures ShouldUseFhe(enabled, chainA) == ShouldUseFhe(enabled, chainB) == enabled
  {
  }

  /** The returned record: the chosen hook's fields with `mode`, `isFHEMode` and `shouldUseFHE`. */
  datatype ModeHook<H> = ModeHook(hook: H, mode: string, isFheMode: bool, shouldUseFhe: bool)

  /** The memoised selection: the FHE hook tagged `'FHE'`, or the mock hook tagged `'Mock'`. */
  function SelectHook<H>(shouldUseFhe: bool, mockHook: H, fheHook: H): (r: ModeHook<H>)
    ensures r.isFheMode <==> r.mode == "FHE"
    ensures r.shouldUseFhe == shouldUseFhe
    ensures shouldUseFhe ==> r.hook == fheHook && r.mode == "FHE"
    ensures !shouldUseFhe ==> r.hook == mockHook && r.mode == "Mock"
  {
    if shouldUseFhe then ModeHook(fheHook, "FHE", true, shouldUseFhe)
    else ModeHook(mockHook, "Mock", false, shouldUseFhe)
  }

  /** `useContractMode(signer, chainId)` with the flag as shipped. */
  function UseContractMode<H>(chainId: int, mockHook: H, fheHook: H): ModeHook<H>
  {
    SelectHook(ShouldUseFhe(Config.FhevmEnabled, chainId), mockHook, fheHook)
  }

  /** As shipped, every chain gets the mock hook tagged `'Mock'`, and the mock contract's address. */
  lemma ShippedModeIsMock<H>(chainId: int, mockHook: H, fheHook: H, env: Option<string>)
    ensures UseContractMode(chainId, mockHook, fheHook) == ModeHook(mockHook, "Mock", false, false)
    ensures Config.ContractAddress(Config.FhevmEnabled, env) == Config.ContractAddressMock
  {
  }
}
