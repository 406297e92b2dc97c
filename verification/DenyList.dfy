/** The default hard deny rules (src/core/denyList.ts, src/core/payeeNormalize.ts). */
module DenyList {
  import opened Types

  const IRREVERSIBLE_UNKNOWN_FLOOR_MINOR: int := 50_00

  function IrreversibleUnknownPayeeRule(floorMinor: int): DenyRule {
    DenyRule(
      "irreversible_to_unknown_payee",
      (intent: PaymentIntent, known: set<string>, rev: Reversibility) =>
        rev == Irreversible && intent.payee !in known && intent.amount >= floorMinor)
  }

  /** Code points with no legitimate place in a payee identifier. */
  predicate IsInvisible(c: char) {
    var code := c as int;
    || code <= 0x1f || 0x7f <= code <= 0x9f || code == 0xad
    || 0x200b <= code <= 0x200f || 0x202a <= code <= 0x202e
    || 0x2060 <= code <= 0x206f || code == 0xfeff
  }

  function SpoofedPayeeRule(): DenyRule {
    DenyRule(
      "spoofed_payee_identifier",
      (intent: PaymentIntent, known: set<string>, rev: Reversibility) =>
        exists i :: 0 <= i < |intent.payee| && IsInvisible(intent.payee[i]))
  }

  function DefaultDenyRules(): seq<DenyRule> {
    [IrreversibleUnknownPayeeRule(IRREVERSIBLE_UNKNOWN_FLOOR_MINOR), SpoofedPayeeRule()]
  }
}
