/** The message-category classifier of the pool role: which Stratum V2
    sub-protocol a one-byte message type belongs to. The code values are those
    of section 8 ("Message Types") of the Stratum V2 specification. */
module MessageClassifier {
  import opened Base

  // Common messages
  const MESSAGE_TYPE_SETUP_CONNECTION: U8 := 0x00
  const MESSAGE_TYPE_SETUP_CONNECTION_SUCCESS: U8 := 0x01
  const MESSAGE_TYPE_SETUP_CONNECTION_ERROR: U8 := 0x02
  const MESSAGE_TYPE_CHANNEL_ENDPOINT_CHANGED: U8 := 0x03
  const MESSAGE_TYPE_RECONNECT: U8 := 0x04

  // Mining protocol
  const MESSAGE_TYPE_OPEN_STANDARD_MINING_CHANNEL: U8 := 0x10
  const MESSAGE_TYPE_OPEN_STANDARD_MINING_CHANNEL_SUCCESS: U8 := 0x11
  const MESSAGE_TYPE_OPEN_MINING_CHANNEL_ERROR: U8 := 0x12
  const MESSAGE_TYPE_OPEN_EXTENDED_MINING_CHANNEL: U8 := 0x13
  const MESSAGE_TYPE_OPEN_EXTENDED_MINING_CHANNEL_SUCCESS: U8 := 0x14
  const MESSAGE_TYPE_NEW_MINING_JOB: U8 := 0x15
  const MESSAGE_TYPE_UPDATE_CHANNEL: U8 := 0x16
  const MESSAGE_TYPE_UPDATE_CHANNEL_ERROR: U8 := 0x17
  const MESSAGE_TYPE_CLOSE_CHANNEL: U8 := 0x18
  const MESSAGE_TYPE_SET_EXTRANONCE_PREFIX: U8 := 0x19
  const MESSAGE_TYPE_SUBMIT_SHARES_STANDARD: U8 := 0x1a
  const MESSAGE_TYPE_SUBMIT_SHARES_EXTENDED: U8 := 0x1b
  const MESSAGE_TYPE_SUBMIT_SHARES_SUCCESS: U8 := 0x1c
  const MESSAGE_TYPE_SUBMIT_SHARES_ERROR: U8 := 0x1d
  /** Reserved in the mining range; the source's mining predicate writes it as a bare literal. */
  const MESSAGE_TYPE_RESERVED: U8 := 0x1e
  const MESSAGE_TYPE_NEW_EXTENDED_MINING_JOB: U8 := 0x1f
  const MESSAGE_TYPE_MINING_SET_NEW_PREV_HASH: U8 := 0x20
  const MESSAGE_TYPE_SET_TARGET: U8 := 0x21
  const MESSAGE_TYPE_SET_CUSTOM_MINING_JOB: U8 := 0x22
  const MESSAGE_TYPE_SET_CUSTOM_MINING_JOB_SUCCESS: U8 := 0x23
  const MESSAGE_TYPE_SET_CUSTOM_MINING_JOB_ERROR: U8 := 0x24
  const MESSAGE_TYPE_SET_GROUP_CHANNEL: U8 := 0x26

  // Job declaration protocol
  const MESSAGE_TYPE_ALLOCATE_MINING_JOB_TOKEN: U8 := 0x50
  const MESSAGE_TYPE_ALLOCATE_MINING_JOB_TOKEN_SUCCESS: U8 := 0x51
  const MESSAGE_TYPE_PROVIDE_MISSING_TRANSACTIONS: U8 := 0x55
  const MESSAGE_TYPE_PROVIDE_MISSING_TRANSACTIONS_SUCCESS: U8 := 0x56
  const MESSAGE_TYPE_DECLARE_MINING_JOB: U8 := 0x57
  const MESSAGE_TYPE_DECLARE_MINING_JOB_SUCCESS: U8 := 0x58
  const MESSAGE_TYPE_DECLARE_MINING_JOB_ERROR: U8 := 0x59
  const MESSAGE_TYPE_PUSH_SOLUTION: U8 := 0x60

  // Template distribution protocol
  const MESSAGE_TYPE_COINBASE_OUTPUT_CONSTRAINTS: U8 := 0x70
  const MESSAGE_TYPE_NEW_TEMPLATE: U8 := 0x71
  const MESSAGE_TYPE_SET_NEW_PREV_HASH: U8 := 0x72
  const MESSAGE_TYPE_REQUEST_TRANSACTION_DATA: U8 := 0x73
  const MESSAGE_TYPE_REQUEST_TRANSACTION_DATA_SUCCESS: U8 := 0x74
  const MESSAGE_TYPE_REQUEST_TRANSACTION_DATA_ERROR: U8 := 0x75
  const MESSAGE_TYPE_SUBMIT_SOLUTION: U8 := 0x76

  /** Each predicate below is bounded by a code range of this model's own
      choosing, which the listed codes happen to respect: common codes are
      below 0x10, mining codes from 0x10 to below 0x50, job declaration codes
      from 0x50 to below 0x70 and template distribution codes from 0x70 to
      below 0x80. The ranges do not overlap. */
  predicate IsCommonMessage(messageType: U8)
    ensures IsCommonMessage(messageType) ==> messageType < 0x10
  {
    || messageType == MESSAGE_TYPE_SETUP_CONNECTION
    || messageType == MESSAGE_TYPE_SETUP_CONNECTION_SUCCESS
    || messageType == MESSAGE_TYPE_SETUP_CONNECTION_ERROR
    || messageType == MESSAGE_TYPE_CHANNEL_ENDPOINT_CHANGED
    || messageType == MESSAGE_TYPE_RECONNECT
  }

  predicate IsMiningMessage(messageType: U8)
    ensures IsMiningMessage(messageType) ==> 0x10 <= messageType < 0x50
  {
    || messageType == MESSAGE_TYPE_OPEN_STANDARD_MINING_CHANNEL
    || messageType == MESSAGE_TYPE_OPEN_STANDARD_MINING_CHANNEL_SUCCESS
    || messageType == MESSAGE_TYPE_OPEN_MINING_CHANNEL_ERROR
    || messageType == MESSAGE_TYPE_OPEN_EXTENDED_MINING_CHANNEL
    || messageType == MESSAGE_TYPE_OPEN_EXTENDED_MINING_CHANNEL_SUCCESS
    || messageType == MESSAGE_TYPE_NEW_MINING_JOB
    || messageType == MESSAGE_TYPE_UPDATE_CHANNEL
    || messageType == MESSAGE_TYPE_UPDATE_CHANNEL_ERROR
    || messageType == MESSAGE_TYPE_CLOSE_CHANNEL
    || messageType == MESSAGE_TYPE_SET_EXTRANONCE_PREFIX
    || messageType == MESSAGE_TYPE_SUBMIT_SHARES_STANDARD
    || messageType == MESSAGE_TYPE_SUBMIT_SHARES_EXTENDED
    || messageType == MESSAGE_TYPE_SUBMIT_SHARES_SUCCESS
    || messageType == MESSAGE_TYPE_SUBMIT_SHARES_ERROR
    || messageType == MESSAGE_TYPE_RESERVED
    || messageType == MESSAGE_TYPE_NEW_EXTENDED_MINING_JOB
    || messageType == MESSAGE_TYPE_MINING_SET_NEW_PREV_HASH
    || messageType == MESSAGE_TYPE_SET_TARGET
    || messageType == MESSAGE_TYPE_SET_CUSTOM_MINING_JOB
    || messageType == MESSAGE_TYPE_SET_CUSTOM_MINING_JOB_SUCCESS
    || messageType == MESSAGE_TYPE_SET_CUSTOM_MINING_JOB_ERROR
    || messageType == MESSAGE_TYPE_SET_GROUP_CHANNEL
  }

  predicate IsJobDeclarationMessage(messageType: U8)
    ensures IsJobDeclarationMessage(messageType) ==> 0x50 <= messageType < 0x70
  {
    || messageType == MESSAGE_TYPE_ALLOCATE_MINING_JOB_TOKEN
    || messageType == MESSAGE_TYPE_ALLOCATE_MINING_JOB_TOKEN_SUCCESS
    || messageType == MESSAGE_TYPE_PROVIDE_MISSING_TRANSACTIONS
    || messageType == MESSAGE_TYPE_PROVIDE_MISSING_TRANSACTIONS_SUCCESS
    || messageType == MESSAGE_TYPE_DECLARE_MINING_JOB
    || messageType == MESSAGE_TYPE_DECLARE_MINING_JOB_SUCCESS
    || messageType == MESSAGE_TYPE_DECLARE_MINING_JOB_ERROR
    || messageType == MESSAGE_TYPE_PUSH_SOLUTION
  }

  predicate IsTemplateDistributionMessage(messageType: U8)
    ensures IsTemplateDistributionMessage(messageType) ==> 0x70 <= messageType < 0x80
  {
    || messageType == MESSAGE_TYPE_COINBASE_OUTPUT_CONSTRAINTS
    || messageType == MESSAGE_TYPE_NEW_TEMPLATE
    || messageType == MESSAGE_TYPE_SET_NEW_PREV_HASH
    || messageType == MESSAGE_TYPE_REQUEST_TRANSACTION_DATA
    || messageType == MESSAGE_TYPE_REQUEST_TRANSACTION_DATA_SUCCESS
    || messageType == MESSAGE_TYPE_REQUEST_TRANSACTION_DATA_ERROR
    || messageType == MESSAGE_TYPE_SUBMIT_SOLUTION
  }

  datatype MessageType = Common | Mining | JobDeclaration | TemplateDistribution | Unknown

  /** The first category, in the order Common, Mining, JobDeclaration,
      TemplateDistribution, whose predicate holds; Unknown if none does.
      Because the four sets are disjoint, each category is returned exactly
      when its own predicate holds: the order never decides anything. */
  function ProtocolMessageType(messageType: U8): (r: MessageType)
    ensures r == Common <==> IsCommonMessage(messageType)
    ensures r == Mining <==> IsMiningMessage(messageType)
    ensures r == JobDeclaration <==> IsJobDeclarationMessage(messageType)
    ensures r == TemplateDistribution <==> IsTemplateDistributionMessage(messageType)
    ensures r == Unknown <==>
      !IsCommonMessage(messageType) && !IsMiningMessage(messageType) &&
      !IsJobDeclarationMessage(messageType) && !IsTemplateDistributionMessage(messageType)
  {
    if IsCommonMessage(messageType) then
      Common
    else if IsMiningMessage(messageType) then
      Mining
    else if IsJobDeclarationMessage(messageType) then
      JobDeclaration
    else if IsTemplateDistributionMessage(messageType) then
      TemplateDistribution
    else
      Unknown
  }

  /** No message type belongs to two sub-protocols. */
  lemma CategoriesDisjoint(messageType: U8)
    ensures IsCommonMessage(messageType) ==>
      !IsMiningMessage(messageType) && !IsJobDeclarationMessage(messageType) &&
      !IsTemplateDistributionMessage(messageType)
    ensures IsMiningMessage(messageType) ==>
      !IsJobDeclarationMessage(messageType) && !IsTemplateDistributionMessage(messageType)
    ensures IsJobDeclarationMessage(messageType) ==> !IsTemplateDistributionMessage(messageType)
  {
  }

  /** The reserved code 0x1e is classified as a mining message. */
  lemma ReservedCodeIsMining()
    ensures IsMiningMessage(0x1e)
    ensures ProtocolMessageType(0x1e) == Mining
  {
  }
}
