/** The `generateImage` tool: check the image-generation entitlement, then either return the
    fixed "must upgrade" record or call the image generator. */
module GenerateImage {
  import Flags

  /** The context handed to the policy oracle. */
  datatype SchematicContext = SchematicContext(companyId: string, userId: string)

  /** The tool as constructed by `generateImage(videoId, userId)`. */
  datatype ImageTool = ImageTool(videoId: string, userId: string)

  /** The arguments the model supplies to a tool call. */
  datatype ImageArgs = ImageArgs(prompt: string, videoId: string)

  /** What the awaited `client.checkFlag` call settles to: a flag value, or a rejection. */
  datatype FlagReply = FlagValue(enabled: bool) | FlagThrew(error: string)

  /** What the awaited image generator settles to: an image, or a rejection. */
  datatype ImageReply<Image> = Produced(image: Image) | GenerationThrew(error: string)

  /** Every returned record carries exactly one of `error` and `image`. */
  datatype ToolResult<Image> = NotEnabled(error: string) | Generated(image: Image)

  /** `execute` either rejects with the awaited call's error or resolves to a record. */
  datatype Outcome<Image> = Thrown(error: string) | Returned(result: ToolResult<Image>)

  const NotEnabledMessage := "Image generation is not enabled, the user must upgrade"

  /** The oracle context: the user id serves as both the company id and the user id. */
  function ContextOf(tool: ImageTool): (ctx: SchematicContext)
    ensures ctx.companyId == tool.userId && ctx.userId == tool.userId
  {
    SchematicContext(tool.userId, tool.userId)
  }

  /** The tool's `execute`. `checkFlag` is the oracle's reply and `generate` the image
      generator's reply for a prompt and a video id; neither call is caught, so a
      rejection of either rejects `execute` with the same error. */
  function Execute<Image>(tool: ImageTool, args: ImageArgs,
                          checkFlag: (SchematicContext, string) -> FlagReply,
                          generate: (string, string) -> ImageReply<Image>): (r: Outcome<Image>)
    ensures var flag := checkFlag(ContextOf(tool), Flags.Value(Flags.ImageGeneration));
            && (flag.FlagThrew? ==> r == Thrown(flag.error))
            && (r == Returned(NotEnabled(NotEnabledMessage)) <==> flag == FlagValue(false))
            && (r.Returned? && r.result.Generated? <==>
                  flag == FlagValue(true) && generate(args.prompt, tool.videoId).Produced?)
            && (r.Returned? && r.result.Generated? ==>
                  r.result.image == generate(args.prompt, tool.videoId).image)
            && (flag == FlagValue(true) && generate(args.prompt, tool.videoId).GenerationThrew? ==>
                  r == Thrown(generate(args.prompt, tool.videoId).error))
  {
    match checkFlag(ContextOf(tool), Flags.Value(Flags.ImageGeneration))
    case FlagThrew(e) => Thrown(e)
    case FlagValue(enabled) =>
      if !enabled then Returned(NotEnabled(NotEnabledMessage))
      else
        match generate(args.prompt, tool.videoId)
        case GenerationThrew(e) => Thrown(e)
        case Produced(image) => Returned(Generated(image))
  }

  /** On denial the generator does not take part: any two generators give the same result. */
  lemma DeniedIgnoresGenerator<Image>(tool: ImageTool, args: ImageArgs,
                                      checkFlag: (SchematicContext, string) -> FlagReply,
                                      g1: (string, string) -> ImageReply<Image>,
                                      g2: (string, string) -> ImageReply<Image>)
    requires checkFlag(ContextOf(tool), "image-generation") == FlagValue(false)
    ensures Execute(tool, args, checkFlag, g1) == Execute(tool, args, checkFlag, g2)
                                               == Returned(NotEnabled(NotEnabledMessage))
  {
  }

  /** A rejected entitlement check fails closed: `execute` rejects with the oracle's error,
      and the generator does not take part. */
  lemma CheckThrownIgnoresGenerator<Image>(tool: ImageTool, args: ImageArgs,
                                           checkFlag: (SchematicContext, string) -> FlagReply,
                                           g1: (string, string) -> ImageReply<Image>,
                                           g2: (string, string) -> ImageReply<Image>)
    requires checkFlag(ContextOf(tool), "image-generation").FlagThrew?
    ensures Execute(tool, args, checkFlag, g1) == Execute(tool, args, checkFlag, g2)
                                               == Thrown(checkFlag(ContextOf(tool), "image-generation").error)
  {
  }

  /** The `videoId` argument of the call is ignored; the generator gets the constructed one. */
  lemma ArgumentVideoIdIgnored<Image>(tool: ImageTool, prompt: string, v1: string, v2: string,
                                      checkFlag: (SchematicContext, string) -> FlagReply,
                                      generate: (string, string) -> ImageReply<Image>)
    ensures Execute(tool, ImageArgs(prompt, v1), checkFlag, generate) ==
            Execute(tool, ImageArgs(prompt, v2), checkFlag, generate)
  {
  }
}
