/**
 * The TRON plugin's image helpers: a token's logo, or an asset's picture, becomes an image
 * only when the link is there and not empty.
 */
module TronImages {
  import opened Wrappers
  import opened Plugin
  import opened Units

  /** `TokenInfo` as tronscan describes a token. */
  datatype TokenInfo = TokenInfo(tokenId: string, tokenDecimal: Decimals, tokenAbbr: string,
                                 tokenLogo: Option<string>, tokenCanShow: int)

  /** The part of a tronscan `Asset` the image is made from. */
  datatype Asset = Asset(tokenUrl: Option<string>)

  /** A link that is present and not empty. */
  predicate Linked(url: Option<string>) {
    url.Some? && |url.value| > 0
  }

  /** `imageWithTokenInfo`. */
  function ImageWithTokenInfo(info: Option<TokenInfo>): (r: Option<Image>)
    ensures r.Some? <==> info.Some? && Linked(info.value.tokenLogo)
    ensures r.Some? ==> r.value.url == info.value.tokenLogo.value
  {
    if info.Some? && info.value.tokenLogo.Some? && |info.value.tokenLogo.value| > 0 then
      Some(Image(info.value.tokenLogo.value))
    else None
  }

  /** `imageWithAsset`. */
  function ImageWithAsset(asset: Option<Asset>): (r: Option<Image>)
    ensures r.Some? <==> asset.Some? && Linked(asset.value.tokenUrl)
    ensures r.Some? ==> r.value.url == asset.value.tokenUrl.value
  {
    if asset.Some? && asset.value.tokenUrl.Some? && |asset.value.tokenUrl.value| > 0 then
      Some(Image(asset.value.tokenUrl.value))
    else None
  }

  /** The images shown with a transfer: the token's logo, when it has one. */
  function ImagesWithTokenInfo(info: Option<TokenInfo>): (images: seq<Image>)
    ensures |images| <= 1
    ensures |images| == 1 <==> ImageWithTokenInfo(info).Some?
    ensures |images| == 1 ==> images[0] == ImageWithTokenInfo(info).value
  {
    match ImageWithTokenInfo(info)
    case Some(image) => [image]
    case None => []
  }
}
