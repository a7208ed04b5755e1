/**
 * The generator of every `operate*Record` function: its id policy and its field
 * assignments, in source order. Column names are the model properties the source
 * assigns; payload keys are the raw field names it reads.
 */
module Generators {
  import opened JsValue
  import opened Operators

  /** The role whose presence in `roles` makes a user a guest. */
  const GuestRole := "system_guest"

  /** The kinds whose records carry the id the server gave them. */
  const ServerKinds: set<Kind> :=
    {CustomEmoji, Role, System, TermsOfService, Post, File, User, Group, Team, SlashCommand, Channel}

  /** How the generator of kind `k` sets the record's id. */
  function IdPolicyOf(k: Kind): IdPolicy {
    if k in ServerKinds then ServerAssigned
    else if k == Draft || k == PostsInThread then KeepOwn
    else LocalOnly
  }

  /** The field assignments of the generator of kind `k`, in source order. */
  function FieldsOf(k: Kind): seq<Assignment> {
    match k
    case App => AppFields()
    case Global => GlobalFields()
    case Servers => ServersFields()
    case CustomEmoji => CustomEmojiFields()
    case Role => RoleFields()
    case System => SystemFields()
    case TermsOfService => TermsOfServiceFields()
    case Post => PostFields()
    case PostsInThread => PostsInThreadFields()
    case Reaction => ReactionFields()
    case File => FileFields()
    case PostMetadata => PostMetadataFields()
    case Draft => DraftFields()
    case PostsInChannel => PostsInChannelFields()
    case User => UserFields()
    case Preference => PreferenceFields()
    case TeamMembership => TeamMembershipFields()
    case GroupMembership => GroupMembershipFields()
    case ChannelMembership => ChannelMembershipFields()
    case Group => GroupFields()
    case GroupsInTeam => GroupsInTeamFields()
    case GroupsInChannel => GroupsInChannelFields()
    case Team => TeamFields()
    case TeamChannelHistory => TeamChannelHistoryFields()
    case TeamSearchHistory => TeamSearchHistoryFields()
    case SlashCommand => SlashCommandFields()
    case MyTeam => MyTeamFields()
    case Channel => ChannelFields()
    case MyChannelSettings => MyChannelSettingsFields()
    case ChannelInfo => ChannelInfoFields()
    case MyChannel => MyChannelFields()
  }

  /** The generator of the `operate*Record` function of kind `k`. */
  function GeneratorOf(k: Kind): Generator {
    Generator(IdPolicyOf(k), FieldsOf(k))
  }

  /** The field assignments of `operateAppRecord`'s generator. */
  function AppFields(): seq<Assignment>
  {
    [
      Assign("buildNumber", GetOpt("build_number")),
      Assign("createdAt", GetOpt("created_at")),
      Assign("versionNumber", GetOpt("version_number"))]
  }

  /** The field assignments of `operateGlobalRecord`'s generator. */
  function GlobalFields(): seq<Assignment>
  {
    [
      Assign("name", GetOpt("name")),
      Assign("value", GetOpt("value"))]
  }

  /** The field assignments of `operateServersRecord`'s generator. */
  function ServersFields(): seq<Assignment>
  {
    [
      Assign("dbPath", GetOpt("db_path")),
      Assign("displayName", GetOpt("display_name")),
      Assign("mentionCount", GetOpt("mention_count")),
      Assign("unreadCount", GetOpt("unread_count")),
      Assign("url", GetOpt("url"))]
  }

  /** The field assignments of `operateCustomEmojiRecord`'s generator. */
  function CustomEmojiFields(): seq<Assignment>
  {
    [
      Assign("name", Get("name"))]
  }

  /** The field assignments of `operateRoleRecord`'s generator. */
  function RoleFields(): seq<Assignment>
  {
    [
      Assign("name", GetOpt("name")),
      Assign("permissions", GetOpt("permissions"))]
  }

  /** The field assignments of `operateSystemRecord`'s generator. */
  function SystemFields(): seq<Assignment>
  {
    [
      Assign("name", GetOpt("name")),
      Assign("value", GetOpt("value"))]
  }

  /** The field assignments of `operateTermsOfServiceRecord`'s generator. */
  function TermsOfServiceFields(): seq<Assignment>
  {
    [
      Assign("acceptedAt", GetOpt("accepted_at"))]
  }

  /** The field assignments of `operatePostRecord`'s generator. */
  function PostFields(): seq<Assignment>
  {
    [
      Assign("channelId", GetOpt("channel_id")),
      Assign("createAt", GetOpt("create_at")),
      Assign("deleteAt", ZeroUnlessSet("delete_at")),
      Assign("editAt", GetOpt("edit_at")),
      Assign("updateAt", GetOpt("update_at")),
      Assign("isPinned", Get("is_pinned")),
      Assign("message", Sanitized("message")),
      Assign("userId", GetOpt("user_id")),
      Assign("originalId", GetOr("original_id", Str(""))),
      Assign("pendingPostId", GetOr("pending_post_id", Str(""))),
      Assign("previousPostId", GetOr("prev_post_id", Str(""))),
      Assign("rootId", GetOr("root_id", Str(""))),
      Assign("type", GetOr("type", Str(""))),
      Assign("props", GetOr("props", Obj(map[])))]
  }

  /** The posts-in-thread generator as the source writes it: on UPDATE `postId`
      receives the matched record's own id instead of the payload's `post_id`. */
  function RunPostsInThreadAsWritten(c: Ctx, target: Row): Outcome {
    var rest := [Assign("earliest", Get("earliest")), Assign("latest", Get("latest"))];
    if c.action == Create then Run(Generator(KeepOwn, [Assign("postId", Get("post_id"))] + rest), c, target)
    else Run(Generator(KeepOwn, rest), c, Row(target.id, target.columns["postId" := c.matchedId]))
  }

  /** The field assignments of the posts-in-thread generator with `postId` taken
      from the payload under both actions; the rest of the model uses these. */
  function PostsInThreadFields(): seq<Assignment>
  {
    [
      Assign("postId", Get("post_id")),
      Assign("earliest", Get("earliest")),
      Assign("latest", Get("latest"))]
  }

  /** The field assignments of `operateReactionRecord`'s generator. */
  function ReactionFields(): seq<Assignment>
  {
    [
      Assign("userId", Get("user_id")),
      Assign("postId", Get("post_id")),
      Assign("emojiName", Get("emoji_name")),
      Assign("createAt", Get("create_at"))]
  }

  /** The field assignments of `operateFileRecord`'s generator. */
  function FileFields(): seq<Assignment>
  {
    [
      Assign("postId", Get("post_id")),
      Assign("name", Get("name")),
      Assign("extension", Get("extension")),
      Assign("size", Get("size")),
      Assign("mimeType", GetOr("mime_type", Str(""))),
      Assign("width", GetOr("width", Num(0))),
      Assign("height", GetOr("height", Num(0))),
      Assign("imageThumbnail", GetOr("mini_preview", Str(""))),
      Assign("localPath", GetOr("localPath", Str("")))]
  }

  /** The field assignments of `operatePostMetadataRecord`'s generator. */
  function PostMetadataFields(): seq<Assignment>
  {
    [
      Assign("data", Get("data")),
      Assign("postId", Get("postId")),
      Assign("type", Get("type"))]
  }

  /** The field assignments of `operateDraftRecord`'s generator. */
  function DraftFields(): seq<Assignment>
  {
    [
      Assign("rootId", GetOr("root_id", Str(""))),
      Assign("message", GetOr("message", Str(""))),
      Assign("channelId", GetOr("channel_id", Str(""))),
      Assign("files", GetOr("files", List([])))]
  }

  /** The field assignments of `operatePostsInChannelRecord`'s generator. */
  function PostsInChannelFields(): seq<Assignment>
  {
    [
      Assign("channelId", Get("channel_id")),
      Assign("earliest", Get("earliest")),
      Assign("latest", Get("latest"))]
  }

  /** The field assignments of `operateUserRecord`'s generator. */
  function UserFields(): seq<Assignment>
  {
    [
      Assign("authService", Get("auth_service")),
      Assign("deleteAt", Get("delete_at")),
      Assign("updateAt", Get("update_at")),
      Assign("email", Get("email")),
      Assign("firstName", Get("first_name")),
      Assign("isGuest", HasRole("roles", GuestRole)),
      Assign("lastName", Get("last_name")),
      Assign("lastPictureUpdate", Get("last_picture_update")),
      Assign("locale", Get("locale")),
      Assign("nickname", Get("nickname")),
      Assign("position", GetOr("position", Str(""))),
      Assign("roles", Get("roles")),
      Assign("username", Get("username")),
      Assign("notifyProps", Get("notify_props")),
      Assign("props", Get("props")),
      Assign("timezone", Get("timezone")),
      Assign("isBot", Get("is_bot"))]
  }

  /** The field assignments of `operatePreferenceRecord`'s generator. */
  function PreferenceFields(): seq<Assignment>
  {
    [
      Assign("category", Get("category")),
      Assign("name", Get("name")),
      Assign("userId", Get("user_id")),
      Assign("value", Get("value"))]
  }

  /** The field assignments of `operateTeamMembershipRecord`'s generator. */
  function TeamMembershipFields(): seq<Assignment>
  {
    [
      Assign("teamId", Get("team_id")),
      Assign("userId", Get("user_id"))]
  }

  /** The field assignments of `operateGroupMembershipRecord`'s generator. */
  function GroupMembershipFields(): seq<Assignment>
  {
    [
      Assign("groupId", Get("group_id")),
      Assign("userId", Get("user_id"))]
  }

  /** The field assignments of `operateChannelMembershipRecord`'s generator. */
  function ChannelMembershipFields(): seq<Assignment>
  {
    [
      Assign("channelId", Get("channel_id")),
      Assign("userId", Get("user_id"))]
  }

  /** The field assignments of `operateGroupRecord`'s generator. */
  function GroupFields(): seq<Assignment>
  {
    [
      Assign("name", Get("name")),
      Assign("displayName", Get("display_name"))]
  }

  /** The field assignments of `operateGroupsInTeamRecord`'s generator. */
  function GroupsInTeamFields(): seq<Assignment>
  {
    [
      Assign("teamId", Get("team_id")),
      Assign("groupId", Get("group_id"))]
  }

  /** The field assignments of `operateGroupsInChannelRecord`'s generator. */
  function GroupsInChannelFields(): seq<Assignment>
  {
    [
      Assign("channelId", Get("channel_id")),
      Assign("groupId", Get("group_id"))]
  }

  /** The field assignments of `operateTeamRecord`'s generator. */
  function TeamFields(): seq<Assignment>
  {
    [
      Assign("isAllowOpenInvite", Get("allow_open_invite")),
      Assign("description", Get("description")),
      Assign("displayName", Get("display_name")),
      Assign("name", Get("name")),
      Assign("updateAt", Get("update_at")),
      Assign("type", Get("type")),
      Assign("allowedDomains", Get("allowed_domains")),
      Assign("isGroupConstrained", BooleanOf("group_constrained")),
      Assign("lastTeamIconUpdatedAt", Get("last_team_icon_update"))]
  }

  /** The field assignments of `operateTeamChannelHistoryRecord`'s generator. */
  function TeamChannelHistoryFields(): seq<Assignment>
  {
    [
      Assign("teamId", Get("team_id")),
      Assign("channelIds", Get("channel_ids"))]
  }

  /** The field assignments of `operateTeamSearchHistoryRecord`'s generator. */
  function TeamSearchHistoryFields(): seq<Assignment>
  {
    [
      Assign("createdAt", Get("created_at")),
      Assign("displayTerm", Get("display_term")),
      Assign("term", Get("term")),
      Assign("teamId", Get("team_id"))]
  }

  /** The field assignments of `operateSlashCommandRecord`'s generator. */
  function SlashCommandFields(): seq<Assignment>
  {
    [
      Assign("isAutoComplete", Get("auto_complete")),
      Assign("description", Get("description")),
      Assign("displayName", Get("display_name")),
      Assign("hint", Get("auto_complete_hint")),
      Assign("method", Get("method")),
      Assign("teamId", Get("team_id")),
      Assign("token", Get("token")),
      Assign("trigger", Get("trigger")),
      Assign("updateAt", Get("update_at"))]
  }

  /** The field assignments of `operateMyTeamRecord`'s generator. */
  function MyTeamFields(): seq<Assignment>
  {
    [
      Assign("teamId", Get("team_id")),
      Assign("roles", Get("roles")),
      Assign("isUnread", Get("is_unread")),
      Assign("mentionsCount", Get("mentions_count"))]
  }

  /** The field assignments of `operateChannelRecord`'s generator. */
  function ChannelFields(): seq<Assignment>
  {
    [
      Assign("createAt", Get("create_at")),
      Assign("creatorId", Get("creator_id")),
      Assign("deleteAt", Get("delete_at")),
      Assign("displayName", Get("display_name")),
      Assign("isGroupConstrained", BooleanOf("group_constrained")),
      Assign("name", Get("name")),
      Assign("teamId", Get("team_id")),
      Assign("type", Get("type"))]
  }

  /** The field assignments of `operateMyChannelSettingsRecord`'s generator. */
  function MyChannelSettingsFields(): seq<Assignment>
  {
    [
      Assign("channelId", Get("channel_id")),
      Assign("notifyProps", Get("notify_props"))]
  }

  /** The field assignments of `operateChannelInfoRecord`'s generator. */
  function ChannelInfoFields(): seq<Assignment>
  {
    [
      Assign("channelId", Get("channel_id")),
      Assign("guestCount", Get("guest_count")),
      Assign("header", Get("header")),
      Assign("memberCount", Get("member_count")),
      Assign("pinned_post_count", Get("pinned_post_count")),
      Assign("purpose", Get("purpose"))]
  }

  /** The field assignments of `operateMyChannelRecord`'s generator. */
  function MyChannelFields(): seq<Assignment>
  {
    [
      Assign("channelId", Get("channel_id")),
      Assign("roles", Get("roles")),
      Assign("messageCount", Get("message_count")),
      Assign("mentionsCount", Get("mentions_count")),
      Assign("lastPostAt", Get("last_post_at")),
      Assign("lastViewedAt", Get("last_viewed_at"))]
  }
}
