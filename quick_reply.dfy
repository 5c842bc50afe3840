/** The canned answers `callAgent` gives before it touches the catalog or
    the conversation graph: the lower-cased query is searched for four
    keywords in a fixed order and the first one found picks the reply. */
module QuickReplies {
  import opened Errors
  import opened Text

  const DiscountReply := "🎉 We’re offering 20% off on all accessories and 40% off on Men's T-shirts and 55% off on Women's Clothing!"
  const DeliveryReply := "🚚 Free delivery on orders above ₹500. Standard delivery: 3–5 business days."
  const ReturnReply := "🔁 You can return any item within 7 days for a full refund or exchange."
  const ContactReply := "📞 Reach us at support@ecommercebot.com or call +91-9876543210."

  /** The canned reply for `query`, or `None` when the query must go to the
      agent. */
  function QuickReply(query: string): (r: Option<string>)
    ensures r == Some(DiscountReply) <==> Occurs("discount", ToLower(query))
    ensures r == Some(DeliveryReply) <==>
      !Occurs("discount", ToLower(query)) && Occurs("delivery", ToLower(query))
    ensures r == Some(ReturnReply) <==>
      !Occurs("discount", ToLower(query)) && !Occurs("delivery", ToLower(query))
      && Occurs("return", ToLower(query))
    ensures r == Some(ContactReply) <==>
      !Occurs("discount", ToLower(query)) && !Occurs("delivery", ToLower(query))
      && !Occurs("return", ToLower(query)) && Occurs("contact", ToLower(query))
    ensures r == None <==>
      !Occurs("discount", ToLower(query)) && !Occurs("delivery", ToLower(query))
      && !Occurs("return", ToLower(query)) && !Occurs("contact", ToLower(query))
  {
    var lowerQuery := ToLower(query);
    assert |ContactReply| < |ReturnReply| < |DeliveryReply| < |DiscountReply|;
    if Contains(lowerQuery, "discount") then Some(DiscountReply)
    else if Contains(lowerQuery, "delivery") then Some(DeliveryReply)
    else if Contains(lowerQuery, "return") then Some(ReturnReply)
    else if Contains(lowerQuery, "contact") then Some(ContactReply)
    else None
  }

  lemma ToLowerAppend(a: string, b: string)
    ensures ToLower(a + b) == ToLower(a) + ToLower(b)
  {
    assert forall i :: 0 <= i < |a + b| ==> ToLower(a + b)[i] == (ToLower(a) + ToLower(b))[i];
  }

  /** The reply depends on the query only up to letter case. */
  lemma QuickReplyIgnoresCase(query: string)
    ensures QuickReply(ToLower(query)) == QuickReply(query)
  {
    ToLowerIdempotent(query);
  }

  /** A query that mentions "discount", in any mix of upper and lower case
      and anywhere in it, gets the discount reply, whatever other keywords it
      also holds. */
  lemma DiscountMentionWins(before: string, word: string, after: string)
    requires ToLower(word) == "discount"
    ensures QuickReply(before + word + after) == Some(DiscountReply)
  {
    ToLowerAppend(before + word, after);
    ToLowerAppend(before, word);
    var lower := ToLower(before + word + after);
    assert lower == ToLower(before) + "discount" + ToLower(after);
    assert lower[|before|..|before| + 8] == "discount";
    assert OccursAt("discount", lower, |before|);
  }
}
