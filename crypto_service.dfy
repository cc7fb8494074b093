/** The crypto add-on's currency service
    (`apps/crypto-payment/src/services/cryptoService.ts`): the fixed list of
    supported currencies, the exchange rate lookup and the wallet addresses. */
module CryptoService {
  import opened Wrappers

  /** `CryptoCurrency`; the listed prices are whole numbers. */
  datatype CryptoCurrency = CryptoCurrency(id: string, name: string, symbol: string, icon: string, price: int, enabled: bool)

  /** What `getSupportedCurrencies` resolves to. */
  const SupportedCurrencies: seq<CryptoCurrency> := [
    CryptoCurrency("bitcoin", "Bitcoin", "BTC", "\U{20BF}", 45000, true),
    CryptoCurrency("ethereum", "Ethereum", "ETH", "\U{039E}", 3000, true),
    CryptoCurrency("litecoin", "Litecoin", "LTC", "\U{0141}", 150, true),
    CryptoCurrency("monero", "Monero", "XMR", "\U{0271}", 200, true)
  ]

  /** The supported ids, in list order. */
  const SupportedIds: seq<string> := ["bitcoin", "ethereum", "litecoin", "monero"]

  /** Four enabled currencies with distinct ids and positive prices. */
  lemma SupportedCurrenciesWellFormed()
    ensures |SupportedCurrencies| == |SupportedIds| == 4
    ensures forall i :: 0 <= i < 4 ==> SupportedCurrencies[i].id == SupportedIds[i]
    ensures forall i :: 0 <= i < 4 ==> SupportedCurrencies[i].enabled && SupportedCurrencies[i].price > 0
    ensures forall i, j :: 0 <= i < j < 4 ==> SupportedIds[i] != SupportedIds[j]
  {
  }

  /** `currencies.find(c => c.id === id)`: the first currency with that id. */
  function FindCurrency(currencies: seq<CryptoCurrency>, id: string): (r: Option<CryptoCurrency>)
    ensures r.None? <==> forall k :: 0 <= k < |currencies| ==> currencies[k].id != id
    ensures r.Some? ==> r.value.id == id && r.value in currencies
    ensures r.Some? ==>
              exists i :: 0 <= i < |currencies| && currencies[i] == r.value &&
                          forall k :: 0 <= k < i ==> currencies[k].id != id
  {
    if currencies == [] then None
    else if currencies[0].id == id then Some(currencies[0])
    else
      var r := FindCurrency(currencies[1..], id);
      assert r.Some? ==>
               exists i :: 1 <= i < |currencies| && currencies[i] == r.value &&
                           forall k :: 0 <= k < i ==> currencies[k].id != id by {
        if r.Some? {
          var i :| 0 <= i < |currencies[1..]| && currencies[1..][i] == r.value &&
            forall k :: 0 <= k < i ==> currencies[1..][k].id != id;
          assert currencies[i + 1] == r.value;
          assert forall k :: 1 <= k < i + 1 ==> currencies[k].id == currencies[1..][k - 1].id;
        }
      }
      r
  }

  /** A currency is supported exactly when its id is one of the four. */
  lemma SupportedIffListed(id: string)
    ensures FindCurrency(SupportedCurrencies, id).Some? <==> id in SupportedIds
  {
  }

  /** `getExchangeRate(cryptoId, fiatCurrency)`: the listed price of the
      currency, or 0 for an unknown id. */
  function GetExchangeRate(cryptoId: string, fiatCurrency: string): (r: int)
    ensures FindCurrency(SupportedCurrencies, cryptoId).Some? ==> r == FindCurrency(SupportedCurrencies, cryptoId).value.price
    ensures FindCurrency(SupportedCurrencies, cryptoId).None? ==> r == 0
  {
    match FindCurrency(SupportedCurrencies, cryptoId)
    case Some(c) => c.price
    case None => 0
  }

  /** The rate is the same whatever fiat currency is asked for, and positive
      exactly for supported ids. */
  lemma RateIgnoresFiat(cryptoId: string, a: string, b: string)
    ensures GetExchangeRate(cryptoId, a) == GetExchangeRate(cryptoId, b)
    ensures GetExchangeRate(cryptoId, a) > 0 <==> cryptoId in SupportedIds
  {
    SupportedIffListed(cryptoId);
    SupportedCurrenciesWellFormed();
  }

  const UnknownAddress: string := "unknown-address"

  /** `generateWalletAddress(cryptoId)`: the fixed address of a supported id,
      `unknown-address` for anything else. */
  function GenerateWalletAddress(cryptoId: string): (r: string)
    ensures cryptoId == "bitcoin" ==> r == "1A1zP1eP5QGefi2DMPTfTL5SLmv7DivfNa"
    ensures cryptoId == "ethereum" ==> r == "0x742d35Cc6634C0532925a3b8D9cC6a8e24E7aa9b"
    ensures cryptoId == "litecoin" ==> r == "LTC1A1zP1eP5QGefi2DMPTfTL5SLmv7DivfNa"
    ensures cryptoId == "monero" ==> r == "4A1zP1eP5QGefi2DMPTfTL5SLmv7DivfNaXMR"
    ensures cryptoId !in SupportedIds ==> r == UnknownAddress
  {
    if cryptoId == "bitcoin" then "1A1zP1eP5QGefi2DMPTfTL5SLmv7DivfNa"
    else if cryptoId == "ethereum" then "0x742d35Cc6634C0532925a3b8D9cC6a8e24E7aa9b"
    else if cryptoId == "litecoin" then "LTC1A1zP1eP5QGefi2DMPTfTL5SLmv7DivfNa"
    else if cryptoId == "monero" then "4A1zP1eP5QGefi2DMPTfTL5SLmv7DivfNaXMR"
    else UnknownAddress
  }

  /** Every supported currency has a real address, and the four are distinct. */
  lemma SupportedHaveAddresses(id: string)
    requires FindCurrency(SupportedCurrencies, id).Some?
    ensures GenerateWalletAddress(id) != UnknownAddress
    ensures forall other :: other in SupportedIds && other != id ==> GenerateWalletAddress(other) != GenerateWalletAddress(id)
  {
    SupportedIffListed(id);
  }
}
