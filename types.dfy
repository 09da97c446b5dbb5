/** The record shapes shared by the client code: the provider record
    (`LLMProvider`), file contents, the resume section and the conversion
    result of `types.ts`. */
module Types {
  import opened Wrappers

  type Byte = x: int | 0 <= x < 256

  /** One configured LLM provider. The first model is the selected one. */
  datatype Provider = Provider(
    id: string,
    name: string,
    url: string,
    models: seq<string>,
    isActive: bool,
    apiKey: string)

  /** A browser `File`: its name and its bytes (`size` is their number). */
  datatype File = File(name: string, content: seq<Byte>)

  datatype ResumeSection = ResumeSection(sectionName: string, content: string, confidenceScore: real)

  datatype Metadata = Metadata(
    name: Option<string>,
    email: Option<string>,
    phone: Option<string>,
    skills: Option<seq<string>>,
    experience: Option<seq<string>>,
    education: Option<seq<string>>,
    original_filename: string,
    file_type: string,
    conversion_time: int,
    text_length: nat)

  datatype ConversionResult = ConversionResult(
    text: string,
    sections: seq<ResumeSection>,
    metadata: Metadata)
}
