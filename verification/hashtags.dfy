/** The product-interest lookup table of the lead form
    (`PRODUCT_HASHTAGS`) and its lookup with a verbatim fallback. */
module Hashtags {
  import opened Wrappers
  import opened Lead

  /** Known product-interest values and the hashtag-annotated text the
      chat notification shows for each. */
  const ProductHashtags: map<string, string> := map[
    "Tay khoan Morita" := "#Taykhoan #Morita",
    "Máy Scan Cruxell / XQ Chóp" := "Máy Scan #Cruxell #CRX1000 / XQ Chóp #V080",
    "Nội nha TRZX2, ĐVC" := "Nội nha #TRZX2+, ĐVC",
    "Máy phẫu thuật Siêu âm Mectron" := "#MECTRON #PIEZOSURGERY Máy phẫu thuật Siêu âm",
    "Tay rung rửa nội nha EndoUltra" := "Tay rung rửa nội nha #EndoUltra",
    "Pink Wave" := "Đèn trám quang trùng hợp #PinkWave",
    "Máy hút trung tâm" := "Máy hút trung tâm #TCTS2 #TOYKYOGIKEN",
    "Máy CBCT Morita" := "Máy #CBCT #Morita",
    "Máy Pano IC5HD" := "Máy Pano #IC5HD",
    "Ghế nha khoa cao cấp" := "Ghế nha khoa cao cấp #SIGNO",
    "Máy Laser nha khoa" := "Máy #Laser nha khoa",
    "Chất hàn tạm Calcipex II" := "Calci đặt ống tủy #Calcipex II",
    "SmearOFF" := "Dung dịch #VistaApex #SmearOFF",
    "Chlor-XTRA" := "Dung dịch #VistaApex #ChlorXTRA",
    "Vật liệu trám bít ống tủy BG Multi" := "Vật liệu trám bít ống tủy #BGMulti #Nishika",
    "Chất chống nhạy cảm ngà Nanoseal" := "Chất chống nhạy cảm ngà #Nanoseal #Nishika",
    "I do Implant" := "I do Implant #IDO #Implant",
    "Trâm files EndoStar" := "Trâm files #EndoStar",
    "Workshop/Webinar" := "Workshop",
    "Tạo kết nối, tư vấn khác" := "Liên hệ, tư vấn",
    "&#128205;Sếp giao Account" := "&#128205;Sếp giao Account"
  ]

  /** `PRODUCT_HASHTAGS.get(product_interest, product_interest)`: the
      table's text for a known value, the value itself otherwise, and
      `None` when no product interest was submitted. */
  function ProductDisplay(p: Option<string>): (r: Option<string>)
    ensures r.None? <==> p.None?
    ensures p.Some? && p.value in ProductHashtags ==> r == Some(ProductHashtags[p.value])
    ensures p.Some? && p.value !in ProductHashtags ==> r == p
    ensures Truthy(r) <==> Truthy(p)
  {
    TableEntriesNonEmpty();
    match p
    case None => None
    case Some(v) => Some(if v in ProductHashtags then ProductHashtags[v] else v)
  }

  /** No table entry has an empty key or an empty text. */
  lemma TableEntriesNonEmpty()
    ensures "" !in ProductHashtags
    ensures forall k :: k in ProductHashtags ==> ProductHashtags[k] != ""
  {
  }

  /** A known product is shown with its hashtags; an unknown one verbatim. */
  lemma ProductDisplayExamples()
    ensures ProductDisplay(Some("Pink Wave")) == Some("Đèn trám quang trùng hợp #PinkWave")
    ensures ProductDisplay(Some("Unknown Product")) == Some("Unknown Product")
    ensures ProductDisplay(Some("")) == Some("")
    ensures ProductDisplay(None) == None
  {
  }
}
