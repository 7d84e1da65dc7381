/**
 * Prompt construction and input validation of src/lib/ai-prompts.ts: the
 * choice between the new-schema, improvement and analysis templates, and the
 * length rules checked before any generation is attempted.
 */
module AiPrompts {
  import opened TextOps

  datatype SchemaContext = SchemaContext(isImprovement: Option<bool>, fileSize: Option<int>, fileName: Option<string>)

  /** `SchemaGenerationInput`: the description is a (possibly empty) string, the uploaded SQL is optional. */
  datatype SchemaGenerationInput = SchemaGenerationInput(
    userDescription: string,
    uploadedSql: Option<string>,
    context: Option<SchemaContext>)

  /** `AIPromptConfig`, with the temperature held in tenths (0.3 is 3). */
  datatype AIPromptConfig = AIPromptConfig(
    systemPrompt: string,
    userPrompt: string,
    temperatureTenths: nat,
    maxTokens: nat)

  /** How a template literal prints an optional string: an absent value prints as "undefined". */
  function Render(o: Option<string>): string {
    match o
    case Some(s) => s
    case None => "undefined"
  }

  /** A text wrapped in double quotes, as the templates embed the description. */
  function Quoted(s: string): string {
    "\"" + s + "\""
  }

  /** A text inside a fenced SQL block, as the templates embed uploaded SQL. */
  function Fenced(s: string): string {
    "```sql\n" + s + "\n```"
  }

  /** `generateNewSchemaPrompt`: the description, quoted, inside the new-schema template. */
  function GenerateNewSchemaPrompt(input: SchemaGenerationInput): (r: AIPromptConfig)
    ensures r.systemPrompt == SystemPrompt
    ensures r.temperatureTenths == 3 && r.maxTokens == 2500
    ensures Contains(r.userPrompt, Quoted(input.userDescription))
  {
    ContainsInfix(NewSchemaPreamble, Quoted(input.userDescription), NewSchemaInstructions);
    AIPromptConfig(
      SystemPrompt,
      NewSchemaPreamble + Quoted(input.userDescription) + NewSchemaInstructions,
      3, 2500)
  }

  /** `generateSqlImprovementPrompt`: the uploaded SQL, fenced, then the description, quoted. */
  function GenerateSqlImprovementPrompt(input: SchemaGenerationInput): (r: AIPromptConfig)
    ensures r.systemPrompt == SystemPrompt
    ensures r.temperatureTenths == 2 && r.maxTokens == 3000
    ensures Contains(r.userPrompt, Fenced(Render(input.uploadedSql)))
    ensures Contains(r.userPrompt, Quoted(input.userDescription))
  {
    var sql := Fenced(Render(input.uploadedSql));
    var description := Quoted(input.userDescription);
    var userPrompt := ImprovementPreamble + sql + ImprovementRequirementsHeading + description + ImprovementInstructions;
    ContainsInfix(ImprovementPreamble, sql, ImprovementRequirementsHeading + description + ImprovementInstructions);
    ContainsInfix(ImprovementPreamble + sql + ImprovementRequirementsHeading, description, ImprovementInstructions);
    assert userPrompt == ImprovementPreamble + sql + (ImprovementRequirementsHeading + description + ImprovementInstructions);
    AIPromptConfig(SystemPrompt, userPrompt, 2, 3000)
  }

  /** `generateSchemaAnalysisPrompt`: the uploaded SQL, fenced, inside the analysis template. */
  function GenerateSchemaAnalysisPrompt(input: SchemaGenerationInput): (r: AIPromptConfig)
    ensures r.systemPrompt == SystemPrompt
    ensures r.temperatureTenths == 3 && r.maxTokens == 3500
    ensures Contains(r.userPrompt, Fenced(Render(input.uploadedSql)))
  {
    ContainsInfix(AnalysisPreamble, Fenced(Render(input.uploadedSql)), AnalysisInstructions);
    AIPromptConfig(
      SystemPrompt,
      AnalysisPreamble + Fenced(Render(input.uploadedSql)) + AnalysisInstructions,
      3, 3500)
  }

  /**
   * `generateAIPrompt`: improvement when both SQL and description are present,
   * analysis when only SQL is, new-schema otherwise. Every mode uses the same
   * system prompt and embeds the literal inputs it was chosen for.
   */
  function GenerateAIPrompt(input: SchemaGenerationInput): (r: AIPromptConfig)
    ensures r.systemPrompt == SystemPrompt
    ensures Truthy(input.uploadedSql) && input.userDescription != "" ==>
              r == GenerateSqlImprovementPrompt(input)
              && r.temperatureTenths == 2 && r.maxTokens == 3000
              && Contains(r.userPrompt, Fenced(input.uploadedSql.value))
              && Contains(r.userPrompt, Quoted(input.userDescription))
    ensures Truthy(input.uploadedSql) && input.userDescription == "" ==>
              r == GenerateSchemaAnalysisPrompt(input)
              && r.temperatureTenths == 3 && r.maxTokens == 3500
              && Contains(r.userPrompt, Fenced(input.uploadedSql.value))
    ensures !Truthy(input.uploadedSql) ==>
              r == GenerateNewSchemaPrompt(input)
              && r.temperatureTenths == 3 && r.maxTokens == 2500
              && Contains(r.userPrompt, Quoted(input.userDescription))
  {
    if Truthy(input.uploadedSql) && input.userDescription != "" then
      GenerateSqlImprovementPrompt(input)
    else if Truthy(input.uploadedSql) && input.userDescription == "" then
      GenerateSchemaAnalysisPrompt(input)
    else
      GenerateNewSchemaPrompt(input)
  }

  // ---------------------------------------------------------------------
  // Validation

  const MsgMissingInput := "Please provide either a description or upload an SQL file"
  const MsgDescriptionTooShort := "Description is too short. Please provide more details"
  const MsgDescriptionTooLong := "Description is too long. Please keep it under 2000 characters"
  const MsgSqlTooShort := "SQL file seems too short to be a valid schema"
  const MsgSqlTooLarge := "SQL file is too large. Please use files under 50KB"

  const MinDescriptionLength: nat := 10
  const MaxDescriptionLength: nat := 2000
  const MinSqlLength: nat := 20
  const MaxSqlLength: nat := 50000

  /** The rules of `validateSchemaInput`, each with its message. */
  datatype Rule = MissingInput | DescriptionTooShort | DescriptionTooLong | SqlTooShort | SqlTooLarge

  predicate Violates(input: SchemaGenerationInput, rule: Rule) {
    var d := input.userDescription;
    match rule
    case MissingInput => d == "" && !Truthy(input.uploadedSql)
    case DescriptionTooShort => d != "" && |d| < MinDescriptionLength
    case DescriptionTooLong => d != "" && |d| > MaxDescriptionLength
    case SqlTooShort => Truthy(input.uploadedSql) && |input.uploadedSql.value| < MinSqlLength
    case SqlTooLarge => Truthy(input.uploadedSql) && |input.uploadedSql.value| > MaxSqlLength
  }

  function RuleMessage(rule: Rule): string {
    match rule
    case MissingInput => MsgMissingInput
    case DescriptionTooShort => MsgDescriptionTooShort
    case DescriptionTooLong => MsgDescriptionTooLong
    case SqlTooShort => MsgSqlTooShort
    case SqlTooLarge => MsgSqlTooLarge
  }

  /** The order in which the rules are checked. */
  const RuleOrder: seq<Rule> := [MissingInput, DescriptionTooShort, DescriptionTooLong, SqlTooShort, SqlTooLarge]

  /** The messages of the violated rules among rules, in order. */
  function ViolatedMessages(rules: seq<Rule>, input: SchemaGenerationInput): seq<string> {
    if rules == [] then []
    else
      (if Violates(input, rules[0]) then [RuleMessage(rules[0])] else [])
      + ViolatedMessages(rules[1..], input)
  }

  /** Every violated rule's message, in the order the rules are checked. */
  function ValidationErrors(input: SchemaGenerationInput): seq<string> {
    ViolatedMessages(RuleOrder, input)
  }

  datatype ValidationResult = ValidationResult(isValid: bool, errors: seq<string>)

  /**
   * `validateSchemaInput`: pushes one message per violated rule, without
   * stopping at the first, and is valid exactly when no rule is violated.
   */
  method ValidateSchemaInput(input: SchemaGenerationInput) returns (r: ValidationResult)
    ensures r.errors == ValidationErrors(input)
    ensures r.isValid <==> r.errors == []
    ensures r.isValid <==> forall rule :: !Violates(input, rule)
  {
    var errors: seq<string> := [];
    var d := input.userDescription;
    if d == "" && !Truthy(input.uploadedSql) {
      errors := errors + [MsgMissingInput];
    }
    if d != "" && |d| < MinDescriptionLength {
      errors := errors + [MsgDescriptionTooShort];
    }
    if d != "" && |d| > MaxDescriptionLength {
      errors := errors + [MsgDescriptionTooLong];
    }
    if Truthy(input.uploadedSql) {
      if |input.uploadedSql.value| < MinSqlLength {
        errors := errors + [MsgSqlTooShort];
      }
      if |input.uploadedSql.value| > MaxSqlLength {
        errors := errors + [MsgSqlTooLarge];
      }
    }
    ValidationErrorsUnfold(input);
    ValidationErrorsEmptyIff(input);
    r := ValidationResult(|errors| == 0, errors);
  }

  /** ValidationErrors written out rule by rule. */
  lemma ValidationErrorsUnfold(input: SchemaGenerationInput)
    ensures ValidationErrors(input) ==
      (if Violates(input, MissingInput) then [MsgMissingInput] else [])
      + (if Violates(input, DescriptionTooShort) then [MsgDescriptionTooShort] else [])
      + (if Violates(input, DescriptionTooLong) then [MsgDescriptionTooLong] else [])
      + (if Violates(input, SqlTooShort) then [MsgSqlTooShort] else [])
      + (if Violates(input, SqlTooLarge) then [MsgSqlTooLarge] else [])
  {
    var r5: seq<Rule> := [];
    var r4 := [SqlTooLarge] + r5;
    var r3 := [SqlTooShort] + r4;
    var r2 := [DescriptionTooLong] + r3;
    var r1 := [DescriptionTooShort] + r2;
    var r0 := [MissingInput] + r1;
    assert r0 == RuleOrder;
    assert r0[1..] == r1 && r1[1..] == r2 && r2[1..] == r3 && r3[1..] == r4 && r4[1..] == r5;
    assert ViolatedMessages(r4, input) == (if Violates(input, SqlTooLarge) then [MsgSqlTooLarge] else []);
    assert ViolatedMessages(r3, input) == (if Violates(input, SqlTooShort) then [MsgSqlTooShort] else []) + ViolatedMessages(r4, input);
    assert ViolatedMessages(r2, input) == (if Violates(input, DescriptionTooLong) then [MsgDescriptionTooLong] else []) + ViolatedMessages(r3, input);
    assert ViolatedMessages(r1, input) == (if Violates(input, DescriptionTooShort) then [MsgDescriptionTooShort] else []) + ViolatedMessages(r2, input);
    assert ViolatedMessages(r0, input) == (if Violates(input, MissingInput) then [MsgMissingInput] else []) + ViolatedMessages(r1, input);
  }

  /** The input is valid (no errors) exactly when it violates no rule. */
  lemma ValidationErrorsEmptyIff(input: SchemaGenerationInput)
    ensures ValidationErrors(input) == [] <==> forall rule :: !Violates(input, rule)
  {
    ValidationErrorsUnfold(input);
  }

  /** Each message is reported exactly when its rule is violated. */
  lemma RuleReportedIff(input: SchemaGenerationInput, rule: Rule)
    ensures RuleMessage(rule) in ValidationErrors(input) <==> Violates(input, rule)
  {
    ValidationErrorsUnfold(input);
  }

  /**
   * The missing-input message appears exactly when both the description and
   * the SQL are empty, and it is then the only message.
   */
  lemma MissingInputIsAlone(input: SchemaGenerationInput)
    ensures MsgMissingInput in ValidationErrors(input) <==>
              input.userDescription == "" && !Truthy(input.uploadedSql)
    ensures input.userDescription == "" && !Truthy(input.uploadedSql) ==>
              ValidationErrors(input) == [MsgMissingInput]
  {
    ValidationErrorsUnfold(input);
  }

  /**
   * At most one description message and at most one SQL message are
   * reported, the description's first.
   */
  lemma AtMostTwoErrors(input: SchemaGenerationInput)
    ensures |ValidationErrors(input)| <= 2
    ensures |ValidationErrors(input)| == 2 ==>
              ValidationErrors(input)[0] in {MsgDescriptionTooShort, MsgDescriptionTooLong}
              && ValidationErrors(input)[1] in {MsgSqlTooShort, MsgSqlTooLarge}
  {
    ValidationErrorsUnfold(input);
  }

  /**
   * An empty description next to a short SQL upload yields the one SQL
   * message: an empty description is falsy, so neither the missing-input nor
   * the too-short description rule fires.
   */
  lemma EmptyDescriptionWithShortSql(input: SchemaGenerationInput)
    requires input.userDescription == ""
    requires Truthy(input.uploadedSql) && |input.uploadedSql.value| < MinSqlLength
    ensures ValidationErrors(input) == [MsgSqlTooShort]
  {
    ValidationErrorsUnfold(input);
  }

  /**
   * A valid input carries a description of 10 to 2000 characters whenever it
   * has one, uploaded SQL of 20 to 50000 characters whenever it has some, and
   * at least one of the two; so every prompt built for a valid input embeds
   * text within those bounds.
   */
  lemma ValidInputBounds(input: SchemaGenerationInput)
    requires ValidationErrors(input) == []
    ensures input.userDescription != "" ==>
              MinDescriptionLength <= |input.userDescription| <= MaxDescriptionLength
    ensures Truthy(input.uploadedSql) ==> MinSqlLength <= |input.uploadedSql.value| <= MaxSqlLength
    ensures !Truthy(input.uploadedSql) ==>
              MinDescriptionLength <= |input.userDescription| <= MaxDescriptionLength
  {
    ValidationErrorsEmptyIff(input);
    assert !Violates(input, MissingInput) && !Violates(input, DescriptionTooShort);
    assert !Violates(input, DescriptionTooLong) && !Violates(input, SqlTooShort) && !Violates(input, SqlTooLarge);
  }

  // ---------------------------------------------------------------------
  // Template texts

  /** The fixed system prompt shared by all three modes. */
  const SystemPrompt: string :=
@"You are an expert database architect and SQL specialist. Your role is to generate optimized, production-ready database schemas based on user requirements.

Core Responsibilities:
- Generate clean, normalized database schemas (typically 3NF unless specified otherwise)
- Create proper relationships with foreign keys and constraints
- Add appropriate indexes for performance optimization
- Include data types that match the requirements
- Provide cost-effective solutions
- Follow database best practices and naming conventions

Output Requirements:
- Always respond with valid SQL DDL statements
- Include CREATE TABLE statements with proper constraints
- Add indexes where beneficial for performance
- Use consistent naming conventions (snake_case for tables/columns)
- Include comments explaining complex relationships
- Provide a brief explanation of design decisions

Schema Optimization:
- Automatically determine the best normalization level based on use case
- Add indexes on foreign keys and frequently queried columns
- Use appropriate data types to minimize storage costs
- Consider query patterns when designing relationships
- Include created_at/updated_at timestamps where relevant

Cost Considerations:
- Optimize for storage efficiency
- Consider read vs write patterns
- Minimize redundant data
- Use appropriate column sizes

RESPONSE FORMAT EXAMPLE:

When generating a new schema, structure your response like this:

```sql
-- Blog System Database Schema

-- Users table for authentication and profiles
CREATE TABLE users (
    id SERIAL PRIMARY KEY,
    email VARCHAR(255) UNIQUE NOT NULL,
    username VARCHAR(100) UNIQUE NOT NULL,
    password_hash VARCHAR(255) NOT NULL,
    first_name VARCHAR(100),
    last_name VARCHAR(100),
    bio TEXT,
    avatar_url VARCHAR(500),
    is_active BOOLEAN DEFAULT true,
    created_at TIMESTAMP DEFAULT CURRENT_TIMESTAMP,
    updated_at TIMESTAMP DEFAULT CURRENT_TIMESTAMP
);

-- Posts table for blog content
CREATE TABLE posts (
    id SERIAL PRIMARY KEY,
    user_id INTEGER NOT NULL REFERENCES users(id) ON DELETE CASCADE,
    title VARCHAR(500) NOT NULL,
    slug VARCHAR(500) UNIQUE NOT NULL,
    content TEXT NOT NULL,
    excerpt VARCHAR(1000),
    status VARCHAR(20) DEFAULT 'draft' CHECK (status IN ('draft', 'published', 'archived')),
    published_at TIMESTAMP,
    created_at TIMESTAMP DEFAULT CURRENT_TIMESTAMP,
    updated_at TIMESTAMP DEFAULT CURRENT_TIMESTAMP
);

-- Comments table for user interactions
CREATE TABLE comments (
    id SERIAL PRIMARY KEY,
    post_id INTEGER NOT NULL REFERENCES posts(id) ON DELETE CASCADE,
    user_id INTEGER NOT NULL REFERENCES users(id) ON DELETE CASCADE,
    parent_id INTEGER REFERENCES comments(id) ON DELETE CASCADE,
    content TEXT NOT NULL,
    is_approved BOOLEAN DEFAULT false,
    created_at TIMESTAMP DEFAULT CURRENT_TIMESTAMP,
    updated_at TIMESTAMP DEFAULT CURRENT_TIMESTAMP
);

-- Performance indexes
CREATE INDEX idx_users_email ON users(email);
CREATE INDEX idx_users_username ON users(username);
CREATE INDEX idx_posts_user_id ON posts(user_id);
CREATE INDEX idx_posts_status_published ON posts(status, published_at) WHERE status = 'published';
CREATE INDEX idx_posts_slug ON posts(slug);
CREATE INDEX idx_comments_post_id ON comments(post_id);
CREATE INDEX idx_comments_user_id ON comments(user_id);
CREATE INDEX idx_comments_parent_id ON comments(parent_id) WHERE parent_id IS NOT NULL;
```

## Design Explanation

**Schema Overview:**
This blog schema follows 3NF normalization principles while optimizing for read-heavy workloads typical of blog platforms.

**Key Design Decisions:**
1. **User Management**: Separate authentication fields from profile data for security
2. **Content Structure**: Posts include slug for SEO-friendly URLs and status for workflow management
3. **Hierarchical Comments**: Self-referencing foreign key allows nested comment threads
4. **Audit Trail**: All tables include created_at/updated_at for change tracking

**Performance Optimizations:**
1. **Composite Index**: (status, published_at) optimizes the common ""published posts"" query
2. **Partial Indexes**: Comments parent_id index only for nested comments to save space
3. **Appropriate Data Types**: VARCHAR sizes optimized for typical content lengths

**Suggestions:**
- Consider adding full-text search indexes for post content if search functionality is needed
- Implement soft deletes for posts if content recovery is important
- Add caching layer (Redis) for frequently accessed posts
- Consider partitioning if expecting high volume (>1M posts)

**Estimated Cost:**
~$8-20/month for small to medium blog (assuming cloud PostgreSQL hosting)

Always follow this structure: SQL code block, then explanations, then suggestions, then cost estimate."

  /** New-schema template: the text before the quoted description. */
  const NewSchemaPreamble: string :=
@"Create a database schema based on this description:

"

  /** New-schema template: the text after the quoted description. */
  const NewSchemaInstructions: string :=
@"

Requirements:
1. Generate complete SQL DDL statements with proper constraints
2. Add strategic indexes for performance optimization
3. Follow 3NF normalization unless use case requires otherwise
4. Include audit timestamps (created_at, updated_at)
5. Use appropriate data types and sizes
6. Add meaningful comments for complex relationships

Please structure your response exactly like the example format in your system prompt:
- Start with SQL code block containing all CREATE TABLE and CREATE INDEX statements
- Follow with ""## Design Explanation"" section explaining your decisions
- Include ""**Suggestions:**"" section with actionable recommendations
- End with ""**Estimated Cost:**"" for cloud hosting

Focus on creating a production-ready schema that balances performance, maintainability, and cost efficiency."

  /** Improvement template: the text before the fenced SQL. */
  const ImprovementPreamble: string :=
@"Analyze and improve this existing SQL schema:

"

  /** Improvement template: the text between the fenced SQL and the quoted description. */
  const ImprovementRequirementsHeading: string :=
@"

Improvement requirements:
"

  /** Improvement template: the text after the quoted description. */
  const ImprovementInstructions: string :=
@"

Please analyze the existing schema and provide improvements. Structure your response as follows:

```sql
-- IMPROVED SCHEMA
-- [Add comments highlighting your changes]

-- Example improvements you might make:
-- 1. Add missing indexes for performance
-- 2. Improve data types and constraints
-- 3. Fix normalization issues
-- 4. Add proper foreign key relationships
-- 5. Include audit timestamps if missing

[Your improved SQL DDL here]
```

## Analysis & Improvements

**Issues Found in Original Schema:**
- List specific problems you identified
- Explain why each issue impacts performance or maintainability

**Key Improvements Made:**
1. **Performance**: Detail indexes and optimizations added
2. **Data Integrity**: Describe constraint and relationship improvements
3. **Normalization**: Explain any structural changes
4. **Best Practices**: Note adherence to conventions

**Suggestions:**
- Additional recommendations for further optimization
- Considerations for scaling and maintenance

**Estimated Cost Impact:**
Compare original vs improved schema costs

Focus on maintaining data integrity while significantly improving performance and maintainability."

  /** Analysis template: the text before the fenced SQL. */
  const AnalysisPreamble: string :=
@"Analyze this database schema and provide comprehensive improvement recommendations:

"

  /** Analysis template: the text after the fenced SQL. */
  const AnalysisInstructions: string :=
@"

Please provide a thorough analysis structured as follows:

## Schema Analysis

**Current Schema Overview:**
- Describe what this schema appears to be designed for
- Identify the main entities and relationships
- Note the current normalization level

**Issues & Opportunities:**
- Performance bottlenecks (missing indexes, inefficient queries)
- Data integrity concerns (missing constraints, weak relationships)
- Normalization problems (redundancy, update anomalies)
- Naming convention inconsistencies
- Missing best practices

```sql
-- OPTIMIZED SCHEMA
-- Comments explaining each improvement

[Provide the improved SQL DDL with all your enhancements]
```

## Improvements Made

**Performance Enhancements:**
1. **Indexes Added**: List each index and why it improves query performance
2. **Data Type Optimizations**: Explain any column type improvements
3. **Query Optimization**: Note structural changes that improve common queries

**Data Integrity Improvements:**
1. **Constraints Added**: Detail foreign keys, checks, and unique constraints
2. **Relationship Fixes**: Explain proper relationship implementations
3. **Validation Rules**: Note any data validation improvements

**Best Practices Applied:**
- Naming convention standardization
- Audit timestamp additions
- Proper default values
- Comment additions for clarity

**Suggestions for Further Enhancement:**
- Scaling considerations
- Monitoring recommendations
- Maintenance best practices
- Technology-specific optimizations

**Cost Analysis:**
Estimate hosting costs and performance impact of improvements."

}
