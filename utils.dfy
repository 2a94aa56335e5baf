/**
 * The structural check of a feed document (utils.py): a pure reading of the
 * element tree that never changes it.
 */
module Utils {
  import opened Wrappers
  import opened PyValues
  import opened Elements

  /** The fields every ad must carry, in the order they are checked. */
  const RequiredAdFields: seq<string> := ["Title", "Description", "Price"]

  /** The first child tagged `field` exists and its text is truthy. */
  predicate HasFilledField(ad: Element, field: string) {
    match Find(ad, field)
    case None => false
    case Some(child) => Truthy(child.text)
  }

  /** The loop of validate_ad: stop at the first field that is missing or empty. */
  function CheckFields(ad: Element, fields: seq<string>): (ok: bool)
    ensures ok <==> forall k :: 0 <= k < |fields| ==> HasFilledField(ad, fields[k])
  {
    if fields == [] then true
    else if !HasFilledField(ad, fields[0]) then false
    else CheckFields(ad, fields[1..])
  }

  /** validate_ad */
  function ValidateAd(ad: Element): (ok: bool)
    ensures ok <==>
      HasFilledField(ad, "Title") && HasFilledField(ad, "Description") && HasFilledField(ad, "Price")
  {
    var ok := CheckFields(ad, RequiredAdFields);
    assert RequiredAdFields[0] == "Title" && RequiredAdFields[1] == "Description" && RequiredAdFields[2] == "Price";
    ok
  }

  /** The loop of validate_xml over `root.findall('Ad')`: stop at the first invalid ad. */
  function AllAdsValid(ads: seq<Element>): (ok: bool)
    ensures ok <==> forall ad :: ad in ads ==> ValidateAd(ad)
  {
    if ads == [] then true
    else if !ValidateAd(ads[0]) then false
    else AllAdsValid(ads[1..])
  }

  /** validate_xml. Its exception handler is not modelled: none of the checks below can raise. */
  function ValidateXml(root: Element): (ok: bool)
    ensures root.tag != "Ads" ==> !ok
    ensures "formatVersion" !in root.attrib ==> !ok
    ensures "target" !in root.attrib ==> !ok
    ensures ok <==>
      && root.tag == "Ads"
      && "formatVersion" in root.attrib
      && "target" in root.attrib
      && forall c :: c in root.children && c.tag == "Ad" ==> ValidateAd(c)
  {
    if root.tag != "Ads" then false
    else if "formatVersion" !in root.attrib then false
    else if "target" !in root.attrib then false
    else AllAdsValid(FindAll(root.children, "Ad"))
  }
}
