/**
 * The static token-metadata table: tokens whose on-chain symbol, name or
 * decimals cannot be read are given fixed definitions here, and a lookup by
 * address finds the definition for a token, if it has one.
 */
module TokenDefinitions {

  /** The four attributes of a definition, as a value. */
  datatype Metadata = Metadata(address: string, symbol: string, name: string, decimals: int)

  /** An ASCII letter in lower case; every other character unchanged. */
  function LowerChar(c: char): (lower: char)
    ensures 'A' <= c <= 'Z' ==> lower as int == c as int + 32
    ensures !('A' <= c <= 'Z') ==> lower == c
    ensures !('A' <= lower <= 'Z')
  {
    if 'A' <= c <= 'Z' then (c as int + 32) as char else c
  }

  /**
   * `Address.toHexString`: the address written with lower-case hex digits, so
   * that two spellings of one address that differ only in letter case agree.
   */
  function HexString(address: string): (hex: string)
    ensures |hex| == |address|
    ensures forall i :: 0 <= i < |address| ==> hex[i] == LowerChar(address[i])
  {
    seq(|address|, i requires 0 <= i < |address| => LowerChar(address[i]))
  }

  const UniAddress: string := "0xEe58E4D62b10A92dB1089d4D040B759C28aE16Cd"
  const AaveAddress: string := "0xE76e97C157658004eE22e01C03a5e21A4655A2Fd"
  const LinkAddress: string := "0x47841910329aaa6b88D5e9DcdE9000195151dc72"
  const MaticAddress: string := "0x1B8e27ABA297466fc6765Ce55BD12A8E216759da"
  const GrtAddress: string := "0xb49dd3eDB98FBe82A01DFcb556Cd016964baf5A3"
  const RsAddress: string := "0x1bbd57143428452a4deb42519391a0a436481c8e"

  /** The contents the static definitions are built with, in the order they are added. */
  const StaticTable: seq<Metadata> := [
    Metadata(UniAddress, "UNI", "KCC-Peg Uniswap", 9),
    Metadata(AaveAddress, "AAVE", "KCC-Peg Aave Token", 18),
    Metadata(LinkAddress, "LINK", "KCC-Peg Chainlink", 18),
    Metadata(MaticAddress, "MATIC", "KCC-Peg Polygon", 18),
    Metadata(GrtAddress, "GRT", "KCC-Peg The Graph", 16),
    Metadata(RsAddress, "RS", "Reward Token", 18)
  ]

  /** A token with a fixed definition. Its attributes are set once, by the constructor. */
  class TokenDefinition {
    const address: string
    const symbol: string
    const name: string
    const decimals: int

    constructor (address: string, symbol: string, name: string, decimals: int)
      ensures this.address == address && this.symbol == symbol
      ensures this.name == name && this.decimals == decimals
    {
      this.address := address;
      this.symbol := symbol;
      this.name := name;
      this.decimals := decimals;
    }

    /** The definition's attributes as a value. */
    function View(): Metadata {
      Metadata(address, symbol, name, decimals)
    }

    /**
     * `getStaticDefinitions`: a fresh list of the six definitions, built one
     * push at a time.
     *
     * The source starts from `new Array<TokenDefinition>(6)`, which already has
     * six empty slots, so its pushes land at positions 6 to 11 and the lookup
     * below would meet an empty slot first. This model starts from the empty
     * list and holds the six pushed definitions only.
     */
    static method GetStaticDefinitions() returns (staticDefinitions: seq<TokenDefinition>)
      ensures |staticDefinitions| == |StaticTable|
      ensures forall k :: 0 <= k < |staticDefinitions| ==> staticDefinitions[k].View() == StaticTable[k]
    {
      staticDefinitions := [];

      var tokenUNI := new TokenDefinition(UniAddress, "UNI", "KCC-Peg Uniswap", 9);
      staticDefinitions := staticDefinitions + [tokenUNI];

      var tokenAAVE := new TokenDefinition(AaveAddress, "AAVE", "KCC-Peg Aave Token", 18);
      staticDefinitions := staticDefinitions + [tokenAAVE];

      var tokenLINK := new TokenDefinition(LinkAddress, "LINK", "KCC-Peg Chainlink", 18);
      staticDefinitions := staticDefinitions + [tokenLINK];

      var tokenMATIC := new TokenDefinition(MaticAddress, "MATIC", "KCC-Peg Polygon", 18);
      staticDefinitions := staticDefinitions + [tokenMATIC];

      var tokenGRT := new TokenDefinition(GrtAddress, "GRT", "KCC-Peg The Graph", 16);
      staticDefinitions := staticDefinitions + [tokenGRT];

      var tokenRS := new TokenDefinition(RsAddress, "RS", "Reward Token", 18);
      staticDefinitions := staticDefinitions + [tokenRS];
    }

    /**
     * `fromAddress`: the first static definition whose address has the same
     * hex string as the given one, or null when no definition has.
     */
    static method FromAddress(tokenAddress: string) returns (definition: TokenDefinition?)
      ensures definition == null <==>
        forall k :: 0 <= k < |StaticTable| ==> HexString(StaticTable[k].address) != HexString(tokenAddress)
      ensures definition != null ==> HexString(definition.address) == HexString(tokenAddress)
      ensures definition != null ==>
        exists k :: 0 <= k < |StaticTable| && definition.View() == StaticTable[k]
          && forall j :: 0 <= j < k ==> HexString(StaticTable[j].address) != HexString(tokenAddress)
    {
      var staticDefinitions := GetStaticDefinitions();
      var tokenAddressHex := HexString(tokenAddress);
      var i := 0;
      while i < |staticDefinitions|
        invariant 0 <= i <= |staticDefinitions|
        invariant forall j :: 0 <= j < i ==> HexString(StaticTable[j].address) != tokenAddressHex
      {
        var staticDefinition := staticDefinitions[i];
        if HexString(staticDefinition.address) == tokenAddressHex {
          assert staticDefinition.View() == StaticTable[i];
          return staticDefinition;
        }
        i := i + 1;
      }
      return null;
    }
  }

  /** No two static definitions share an address, in any letter case. */
  lemma StaticAddressesDistinct()
    ensures forall j, k :: 0 <= j < k < |StaticTable| ==>
      HexString(StaticTable[j].address) != HexString(StaticTable[k].address)
  {
    StaticHexStrings();
  }

  /** Looking up the reward token's address gives its definition: RS, "Reward Token", 18 decimals. */
  method LookupRewardToken() returns (definition: TokenDefinition?)
    ensures definition != null && definition.View() == Metadata(RsAddress, "RS", "Reward Token", 18)
  {
    definition := TokenDefinition.FromAddress(RsAddress);
    assert StaticTable[5].address == RsAddress;
    StaticAddressesDistinct();
    var k :| 0 <= k < |StaticTable| && definition.View() == StaticTable[k];
    assert k == 5;
  }

  /** The six table addresses in canonical (lower-case) form. */
  lemma StaticHexStrings()
    ensures HexString(UniAddress) == "0xee58e4d62b10a92db1089d4d040b759c28ae16cd"
    ensures HexString(AaveAddress) == "0xe76e97c157658004ee22e01c03a5e21a4655a2fd"
    ensures HexString(LinkAddress) == "0x47841910329aaa6b88d5e9dcde9000195151dc72"
    ensures HexString(MaticAddress) == "0x1b8e27aba297466fc6765ce55bd12a8e216759da"
    ensures HexString(GrtAddress) == "0xb49dd3edb98fbe82a01dfcb556cd016964baf5a3"
    ensures HexString(RsAddress) == "0x1bbd57143428452a4deb42519391a0a436481c8e"
  {
    UniHexString();
    AaveHexString();
    LinkHexString();
    MaticHexString();
    GrtHexString();
    RsHexString();
  }

  lemma UniHexString()
    ensures HexString(UniAddress) == "0xee58e4d62b10a92db1089d4d040b759c28ae16cd"
  {
  }

  lemma AaveHexString()
    ensures HexString(AaveAddress) == "0xe76e97c157658004ee22e01c03a5e21a4655a2fd"
  {
  }

  lemma LinkHexString()
    ensures HexString(LinkAddress) == "0x47841910329aaa6b88d5e9dcde9000195151dc72"
  {
  }

  lemma MaticHexString()
    ensures HexString(MaticAddress) == "0x1b8e27aba297466fc6765ce55bd12a8e216759da"
  {
  }

  lemma GrtHexString()
    ensures HexString(GrtAddress) == "0xb49dd3edb98fbe82a01dfcb556cd016964baf5a3"
  {
  }

  lemma RsHexString()
    ensures HexString(RsAddress) == "0x1bbd57143428452a4deb42519391a0a436481c8e"
  {
  }

  lemma LowerCaseUniHexString()
    ensures HexString("0xee58e4d62b10a92db1089d4d040b759c28ae16cd") == "0xee58e4d62b10a92db1089d4d040b759c28ae16cd"
  {
  }

  /** The lookup ignores letter case: the all-lower-case UNI address finds the UNI definition. */
  method LookupLowerCaseUni() returns (definition: TokenDefinition?)
    ensures definition != null && definition.View() == Metadata(UniAddress, "UNI", "KCC-Peg Uniswap", 9)
  {
    definition := TokenDefinition.FromAddress("0xee58e4d62b10a92db1089d4d040b759c28ae16cd");
    UniHexString();
    LowerCaseUniHexString();
    assert HexString(StaticTable[0].address) == HexString("0xee58e4d62b10a92db1089d4d040b759c28ae16cd");
    assert definition != null;
    StaticAddressesDistinct();
    var k :| 0 <= k < |StaticTable| && definition.View() == StaticTable[k];
    assert k == 0;
  }
}
