/** The PRD records shared by the editor, the Markdown export and the PDF export. */
module PrdTypes {

  datatype Priority = High | Medium | Low

  datatype FeatureStatus = MustHave | ShouldHave | NiceToHave

  /** The text a priority renders as in `${feature.priority}`. */
  function PriorityLabel(p: Priority): string {
    match p
    case High => "High"
    case Medium => "Medium"
    case Low => "Low"
  }

  /** The text a status renders as in `${feature.status}`. */
  function StatusLabel(s: FeatureStatus): string {
    match s
    case MustHave => "Must Have"
    case ShouldHave => "Should Have"
    case NiceToHave => "Nice to Have"
  }

  datatype Feature = Feature(
    id: string,
    title: string,
    description: string,
    priority: Priority,
    status: FeatureStatus)

  /** The editor state of one PRD; `sections` maps a section id to the text typed for it. */
  datatype PrdState = PrdState(
    title: string,
    author: string,
    date: string,
    version: string,
    sections: map<string, string>,
    features: seq<Feature>)

  datatype TemplateSection = TemplateSection(id: string, title: string, description: string, placeholder: string)

  /** The fixed table of the ten PRD sections, in display and export order. */
  const TemplateSections: seq<TemplateSection> := [
    TemplateSection("overview", "Overview",
      "A brief summary of what the product/feature is and why it matters.",
      "Briefly describe the purpose and scope of this PRD. What problem does it solve?"),
    TemplateSection("background", "Background & Strategic Fit",
      "The context behind this initiative and how it aligns with company goals.",
      "What's the history behind this need? How does it align with company strategy and goals?"),
    TemplateSection("goals", "Goals & Success Metrics",
      "What this product/feature aims to achieve and how success will be measured.",
      "List the key goals and metrics to track success (e.g., user engagement, conversion, etc.)."),
    TemplateSection("user-problems", "User Problems & Use Cases",
      "The specific user needs this addresses and how users will interact with it.",
      "Describe the specific user problems and needs this will address. Include user stories if applicable."),
    TemplateSection("requirements", "Functional Requirements",
      "The detailed specifications of what the product/feature must do.",
      "List the key requirements and functionality this must deliver."),
    TemplateSection("design", "Design & User Experience",
      "The visual and interaction design specifications.",
      "Describe the design approach, user flows, and key UX considerations."),
    TemplateSection("technical", "Technical Considerations",
      "Technical architecture, dependencies, and constraints.",
      "What are the technical requirements, dependencies, or constraints to consider?"),
    TemplateSection("timeline", "Timeline & Milestones",
      "The proposed schedule for development and release.",
      "Outline the proposed timeline with key milestones and dependencies."),
    TemplateSection("risks", "Risks & Mitigations",
      "Potential issues and how they'll be addressed.",
      "What are the potential risks, and how will they be mitigated?"),
    TemplateSection("open-questions", "Open Questions",
      "Unresolved issues that need further research or discussion.",
      "List any open questions or areas needing additional research.")
  ]
}
