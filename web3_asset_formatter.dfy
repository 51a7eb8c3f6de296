/**
 * `Web3AssetFormatter.format`: one flat row per crypto asset. The
 * timestamp's `toLocaleString('pt-BR')` is a parameter.
 */
module Web3AssetFormatter {
  import opened Wrappers
  import opened ExportRows

  /** The token standards an asset may follow. */
  datatype TokenType = NATIVE | ERC20 | ERC721 | ERC1155

  /** The standard as the API writes it. */
  function TokenTypeName(t: TokenType): string {
    match t
    case NATIVE => "NATIVE"
    case ERC20 => "ERC20"
    case ERC721 => "ERC721"
    case ERC1155 => "ERC1155"
  }

  /** A crypto asset held by a user; the balance is a decimal string. */
  datatype Web3Asset = Web3Asset(
    id: string, name: string, symbol: string, balance: string, tokenAddress: Option<string>,
    tokenType: TokenType, network: string, lastUpdated: string, userId: string)

  /** The keys of a formatted asset, in order. */
  const Headers: seq<string> := ["Nome", "Símbolo", "Saldo", "Tipo de Token", "Rede", "Última Atualização"]

  /** The row of one asset. */
  function Formatted(asset: Web3Asset, toLocale: string -> string): Row {
    [("Nome", Str(asset.name)),
     ("Símbolo", Str(asset.symbol)),
     ("Saldo", Str(asset.balance)),
     ("Tipo de Token", Str(TokenTypeName(asset.tokenType))),
     ("Rede", Str(asset.network)),
     ("Última Atualização", Str(toLocale(asset.lastUpdated)))]
  }

  /** `assets.map(...)`. */
  function Format(assets: seq<Web3Asset>, toLocale: string -> string): (r: seq<Row>)
    ensures |r| == |assets|
  {
    seq(|assets|, i requires 0 <= i < |assets| => Formatted(assets[i], toLocale))
  }

  /** The standard can be read back from its name. */
  lemma TokenTypeNameInjective(a: TokenType, b: TokenType)
    ensures TokenTypeName(a) == TokenTypeName(b) <==> a == b
  {
  }

  /** No key repeats and none is an attribute of the asset itself. */
  lemma HeadersDistinct()
    ensures forall a, b :: 0 <= a < b < |Headers| ==> Headers[a] != Headers[b]
    ensures "id" !in Headers && "userId" !in Headers && "tokenAddress" !in Headers
  {
  }

  /**
   * Row `i` belongs to asset `i`: its six keys come once each in the listed
   * order; name, symbol, balance and network are copied unchanged, the
   * token standard is written by name, and the identifier, contract address
   * and owner are not exported.
   */
  lemma FormatSpec(assets: seq<Web3Asset>, toLocale: string -> string, i: nat)
    requires i < |assets|
    ensures var row := Format(assets, toLocale)[i];
      var a := assets[i];
      && ObjectKeys(row) == Headers && DistinctKeys(row)
      && Lookup(row, "Nome") == Str(a.name)
      && Lookup(row, "Símbolo") == Str(a.symbol)
      && Lookup(row, "Saldo") == Str(a.balance)
      && Lookup(row, "Tipo de Token") == Str(TokenTypeName(a.tokenType))
      && Lookup(row, "Rede") == Str(a.network)
      && Lookup(row, "Última Atualização") == Str(toLocale(a.lastUpdated))
      && Lookup(row, "id") == Missing && Lookup(row, "userId") == Missing && Lookup(row, "tokenAddress") == Missing
  {
    var row := Format(assets, toLocale)[i];
    assert ObjectKeys(row) == Headers;
    HeadersDistinct();
    assert DistinctKeys(row) by {
      forall a, b | 0 <= a < b < |row| ensures row[a].0 != row[b].0 {
        assert row[a].0 == Headers[a] && row[b].0 == Headers[b];
      }
    }
    LookupFinds(row, 0);
    LookupFinds(row, 1);
    LookupFinds(row, 2);
    LookupFinds(row, 3);
    LookupFinds(row, 4);
    LookupFinds(row, 5);
    LookupAbsent(row, "id");
    LookupAbsent(row, "userId");
    LookupAbsent(row, "tokenAddress");
  }
}
